/** `parseInt` in base 10, as the migration reads numeric fields stored as strings. */
module Numbers {
  import opened Base
  import Text


  /** The longest run of ASCII digits `s` starts with. */
  function LeadingDigits(s: string): (d: string)
    ensures |d| <= |s| && d == s[..|d|]
    ensures forall i :: 0 <= i < |d| ==> '0' <= d[i] <= '9'
    ensures |d| < |s| ==> !('0' <= s[|d|] <= '9')
  {
    if |s| > 0 && '0' <= s[0] <= '9' then
      var rest := LeadingDigits(s[1..]);
      assert [s[0]] + rest == s[..|rest| + 1];
      [s[0]] + rest
    else []
  }

  /** `parseInt(s)` in base 10: leading spaces are skipped, then an optional sign, then the
      longest run of digits; `None` stands for NaN, when there is no digit. */
  function ParseInt(s: string): Option<int> {
    ParseSigned(s[Text.LeadingSpaces(s)..])
  }

  /** The rest of `parseInt` once the leading spaces are skipped: an optional sign, then
      the digits. */
  function ParseSigned(t: string): Option<int> {
    if |t| > 0 && t[0] == '-' then
      match Magnitude(t[1..])
      case None => None
      case Some(m) => Some(-(m as int))
    else if |t| > 0 && t[0] == '+' then Magnitude(t[1..])
    else Magnitude(t)
  }

  /** The value of the digits `u` starts with, `None` when it starts with none. */
  function Magnitude(u: string): Option<nat> {
    var digits := LeadingDigits(u);
    if digits == [] then None else Some(Text.DigitsValue(digits))
  }

  lemma {:induction false} LeadingDigitsOfNumeral(d: string, rest: string)
    requires forall i :: 0 <= i < |d| ==> '0' <= d[i] <= '9'
    requires rest == [] || !('0' <= rest[0] <= '9')
    ensures LeadingDigits(d + rest) == d
  {
    if |d| > 0 {
      assert (d + rest)[1..] == d[1..] + rest;
      LeadingDigitsOfNumeral(d[1..], rest);
      assert [d[0]] + d[1..] == d;
    } else {
      assert d + rest == rest;
    }
  }

  lemma NoLeadingSpace(s: string)
    requires |s| > 0 && !Text.IsJsSpace(s[0])
    ensures ParseInt(s) == ParseSigned(s)
  {
    assert s[0..] == s;
  }

  lemma MagnitudeOfDigits(d: string, rest: string)
    requires Text.IsDigits(d)
    requires rest == [] || !('0' <= rest[0] <= '9')
    ensures Magnitude(d + rest) == Some(Text.DigitsValue(d))
  {
    LeadingDigitsOfNumeral(d, rest);
  }

  lemma ParseNegativeDigits(s: string, d: string, rest: string)
    requires Text.IsDigits(d)
    requires rest == [] || !('0' <= rest[0] <= '9')
    requires s == "-" + d + rest
    ensures ParseInt(s) == Some(-(Text.DigitsValue(d) as int))
  {
    NotSpace();
    NoLeadingSpace(s);
    assert s[1..] == d + rest;
    MagnitudeOfDigits(d, rest);
    Negated(s, d + rest);
  }

  lemma NotSpace()
    ensures !Text.IsJsSpace('-')
  {
  }

  lemma Negated(s: string, t: string)
    requires |s| > 0 && s[0] == '-' && s[1..] == t && Magnitude(t).Some?
    ensures ParseSigned(s) == Some(-(Magnitude(t).value as int))
  {
  }

  /** `parseInt` reads back a decimal numeral and ignores whatever follows its digits. */
  lemma ParseIntReadsNumeral(n: nat, rest: string)
    requires rest == [] || !('0' <= rest[0] <= '9')
    ensures ParseInt(Text.NatToString(n) + rest) == Some(n)
  {
    var d := Text.NatToString(n);
    assert (d + rest)[0] == d[0] && !Text.IsJsSpace(d[0]);
    NoLeadingSpace(d + rest);
    MagnitudeOfDigits(d, rest);
  }

  /** `parseInt` reads back a negative decimal numeral too. */
  lemma ParseIntReadsNegative(n: nat, rest: string)
    requires rest == [] || !('0' <= rest[0] <= '9')
    ensures ParseInt("-" + Text.NatToString(n) + rest) == Some(-(n as int))
  {
    ParseNegativeDigits("-" + Text.NatToString(n) + rest, Text.NatToString(n), rest);
  }

  /** `parseInt(v) || fallback`: NaN and 0 are falsy, and `parseInt(undefined)` is NaN. */
  function ParsedOr(v: Option<string>, fallback: int): int {
    if v.None? then fallback
    else
      match ParseInt(v.value)
      case None => fallback
      case Some(n) => if n == 0 then fallback else n
  }
}
