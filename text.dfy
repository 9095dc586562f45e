/** String helpers with JavaScript semantics: `trim`, `split`, `join`, decimal digits. */
module Text {

  /** The characters `String.prototype.trim` removes (WhiteSpace and LineTerminator). */
  const JsSpaces: set<char> := {
    ' ', '\t', '\n', '\r', '\U{000B}', '\U{000C}', '\U{00A0}', '\U{1680}',
    '\U{2000}', '\U{2001}', '\U{2002}', '\U{2003}', '\U{2004}', '\U{2005}', '\U{2006}',
    '\U{2007}', '\U{2008}', '\U{2009}', '\U{200A}',
    '\U{2028}', '\U{2029}', '\U{202F}', '\U{205F}', '\U{3000}', '\U{FEFF}' }

  predicate IsJsSpace(c: char) {
    c in JsSpaces
  }

  /** `s.trim()`: the spaces at both ends removed. */
  function Trim(s: string): (r: string)
    ensures |r| <= |s|
  {
    if |s| > 0 && IsJsSpace(s[0]) then Trim(s[1..])
    else if |s| > 0 && IsJsSpace(s[|s| - 1]) then Trim(s[..|s| - 1])
    else s
  }

  /** The number of spaces `s` starts with. */
  function LeadingSpaces(s: string): (n: nat)
    ensures n <= |s|
    ensures forall j :: 0 <= j < n ==> IsJsSpace(s[j])
  {
    if |s| > 0 && IsJsSpace(s[0]) then
      var n := LeadingSpaces(s[1..]);
      assert forall j :: 1 <= j < n + 1 ==> s[j] == s[1..][j - 1];
      1 + n
    else 0
  }

  /** What `trim` keeps neither starts nor ends with a space. */
  lemma {:induction false} TrimEnds(s: string)
    ensures Trim(s) == [] || (!IsJsSpace(Trim(s)[0]) && !IsJsSpace(Trim(s)[|Trim(s)| - 1]))
  {
    if |s| > 0 && IsJsSpace(s[0]) {
      TrimEnds(s[1..]);
    } else if |s| > 0 && IsJsSpace(s[|s| - 1]) {
      TrimEnds(s[..|s| - 1]);
    }
  }

  /** What `trim` keeps is the slice of `s` after its leading spaces, and everything it
      drops after that slice is a space. */
  lemma {:induction false} TrimSlice(s: string)
    ensures var i, r := LeadingSpaces(s), Trim(s);
      && i + |r| <= |s| && r == s[i..i + |r|]
      && (forall j :: i + |r| <= j < |s| ==> IsJsSpace(s[j]))
  {
    var r := Trim(s);
    if |s| > 0 && IsJsSpace(s[0]) {
      TrimSlice(s[1..]);
      var i := LeadingSpaces(s[1..]);
      assert r == s[i + 1..i + 1 + |r|];
      assert forall j :: i + 1 + |r| <= j < |s| ==> IsJsSpace(s[j]) by {
        forall j | i + 1 + |r| <= j < |s| ensures IsJsSpace(s[j]) {
          assert s[j] == s[1..][j - 1];
        }
      }
    } else if |s| > 0 && IsJsSpace(s[|s| - 1]) {
      var t := s[..|s| - 1];
      TrimSlice(t);
      assert LeadingSpaces(t) == 0 == LeadingSpaces(s);
      assert r == s[0..|r|];
      assert forall j :: |r| <= j < |s| ==> IsJsSpace(s[j]) by {
        forall j | |r| <= j < |s| ensures IsJsSpace(s[j]) {
          if j < |t| { assert s[j] == t[j]; }
        }
      }
    } else {
      assert r == s[0..|s|];
    }
  }

  /** Trimming twice is trimming once. */
  lemma TrimIdempotent(s: string)
    ensures Trim(Trim(s)) == Trim(s)
  {
    TrimEnds(s);
  }

  /** How many UTF-16 code units encode `c`: two beyond the Basic Multilingual Plane. */
  function CodeUnits(c: char): nat {
    if c as int > 0xFFFF then 2 else 1
  }

  /** A JavaScript string's `length`, which both the schemas' `maxlength` and zod's `max`
      compare: UTF-16 code units, not characters. */
  function Utf16Length(s: string): (n: nat)
    ensures |s| <= n <= 2 * |s|
  {
    if s == [] then 0 else CodeUnits(s[0]) + Utf16Length(s[1..])
  }

  lemma {:induction false} Utf16LengthAppend(a: string, b: string)
    ensures Utf16Length(a + b) == Utf16Length(a) + Utf16Length(b)
  {
    if a != [] {
      assert (a + b)[1..] == a[1..] + b;
      Utf16LengthAppend(a[1..], b);
    } else {
      assert a + b == b;
    }
  }

  /** Trimming never makes a string longer in code units. */
  lemma TrimUtf16Length(s: string)
    ensures Utf16Length(Trim(s)) <= Utf16Length(s)
  {
    TrimSlice(s);
    var i, r := LeadingSpaces(s), Trim(s);
    assert s == s[..i] + r + s[i + |r|..];
    Utf16LengthAppend(s[..i] + r, s[i + |r|..]);
    Utf16LengthAppend(s[..i], r);
  }

  /** Text within the Basic Multilingual Plane takes one code unit per character. */
  lemma {:induction false} BmpUtf16Length(s: string)
    requires forall i :: 0 <= i < |s| ==> s[i] as int <= 0xFFFF
    ensures Utf16Length(s) == |s|
  {
    if s != [] {
      BmpUtf16Length(s[1..]);
    }
  }

  /** A character beyond the Basic Multilingual Plane, such as an emoji, counts twice. */
  lemma AstralCharacterCountsTwice(c: char)
    requires c as int > 0xFFFF
    ensures Utf16Length([c]) == 2
  {
    assert [c][1..] == [];
  }

  /** `s.split(sep)` for a one-character separator: never empty, and no piece holds `sep`. */
  function Split(s: string, sep: char): (r: seq<string>)
    ensures |r| >= 1
    ensures forall i :: 0 <= i < |r| ==> sep !in r[i]
  {
    if |s| == 0 then [""]
    else
      var rest := Split(s[1..], sep);
      if s[0] == sep then [""] + rest
      else [[s[0]] + rest[0]] + rest[1..]
  }

  /** `parts.join(sep)`. */
  function Join(parts: seq<string>, sep: string): string {
    if |parts| == 0 then ""
    else if |parts| == 1 then parts[0]
    else parts[0] + sep + Join(parts[1..], sep)
  }

  /** Joining the pieces of a split with the separator gives back the string. */
  lemma {:induction false} JoinSplit(s: string, sep: char)
    ensures Join(Split(s, sep), [sep]) == s
  {
    if |s| > 0 {
      var rest := Split(s[1..], sep);
      JoinSplit(s[1..], sep);
      if s[0] != sep {
        if |rest| == 1 {
          assert Split(s, sep) == [[s[0]] + rest[0]];
        } else {
          assert rest == [rest[0]] + rest[1..];
          assert Join(rest, [sep]) == rest[0] + [sep] + Join(rest[1..], [sep]);
          assert Split(s, sep)[1..] == rest[1..];
        }
      } else {
        assert Split(s, sep) == [""] + rest;
      }
    }
  }

  lemma {:induction false} SplitPiece(a: string, sep: char)
    requires sep !in a
    ensures Split(a, sep) == [a]
  {
    if |a| > 0 {
      SplitPiece(a[1..], sep);
      assert a[0] != sep;
      assert [a[0]] + a[1..] == a;
    }
  }

  lemma {:induction false} SplitAfterPiece(a: string, t: string, sep: char)
    requires sep !in a
    ensures Split(a + [sep] + t, sep) == [a] + Split(t, sep)
  {
    if |a| == 0 {
      assert a + [sep] + t == [sep] + t;
      assert ([sep] + t)[1..] == t;
    } else {
      assert (a + [sep] + t)[1..] == a[1..] + [sep] + t;
      SplitAfterPiece(a[1..], t, sep);
      assert [a[0]] + a[1..] == a;
    }
  }

  /** Splitting a join of separator-free pieces gives back the pieces. */
  lemma {:induction false} SplitJoin(parts: seq<string>, sep: char)
    requires |parts| >= 1
    requires forall i :: 0 <= i < |parts| ==> sep !in parts[i]
    ensures Split(Join(parts, [sep]), sep) == parts
  {
    if |parts| == 1 {
      SplitPiece(parts[0], sep);
    } else {
      SplitJoin(parts[1..], sep);
      SplitAfterPiece(parts[0], Join(parts[1..], [sep]), sep);
      assert [parts[0]] + parts[1..] == parts;
    }
  }

  /** The regular expression `^\d+$`: one or more ASCII digits. */
  predicate IsDigits(s: string) {
    |s| > 0 && forall i :: 0 <= i < |s| ==> '0' <= s[i] <= '9'
  }

  function DigitValue(c: char): nat
    requires '0' <= c <= '9'
  {
    (c as int - '0' as int) as nat
  }

  /** `Number(s)` for a string of ASCII digits. */
  function DigitsValue(s: string): nat
    requires forall i :: 0 <= i < |s| ==> '0' <= s[i] <= '9'
  {
    if |s| == 0 then 0 else DigitsValue(s[..|s| - 1]) * 10 + DigitValue(s[|s| - 1])
  }

  function DigitChar(d: nat): (c: char)
    requires d < 10
    ensures '0' <= c <= '9' && DigitValue(c) == d
  {
    ('0' as int + d) as char
  }

  /** `String(n)` for a natural number: a digit string that reads back as `n`. */
  function NatToString(n: nat): (r: string)
    ensures IsDigits(r) && DigitsValue(r) == n
  {
    if n < 10 then
      var r := [DigitChar(n)];
      assert r[..0] == [];
      r
    else
      var p := NatToString(n / 10);
      var r := p + [DigitChar(n % 10)];
      assert r[..|r| - 1] == p;
      r
  }
}
