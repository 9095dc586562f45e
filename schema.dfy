/** The validators Mongoose attaches to schema paths (`required`, `maxlength`, `enum`, `min`,
    `max`, and `required` on array elements), each giving at most one ValidatorError per path,
    named after the first validator that fails */
module Schema {
  import opened Base
  import opened Errors
  import Text

  /** A string path that is `required` (the empty string fails) with an optional `maxlength`;
      at most one error per path, the first failing validator. */
  function StringErrors(path: string, s: string, maxLength: Option<nat>): (r: seq<ValidatorError>)
    ensures |r| <= 1
    ensures r == [] <==> s != "" && (maxLength.Some? ==> Text.Utf16Length(s) <= maxLength.value)
  {
    if s == "" then [ValidatorError(path, "required")]
    else if maxLength.Some? && Text.Utf16Length(s) > maxLength.value then [ValidatorError(path, "maxlength")]
    else []
  }

  /** A required string path restricted to `allowed`. */
  function EnumErrors(path: string, s: string, allowed: seq<string>): (r: seq<ValidatorError>)
    ensures |r| <= 1
    ensures r == [] <==> s != "" && s in allowed
  {
    if s == "" then [ValidatorError(path, "required")]
    else if s !in allowed then [ValidatorError(path, "enum")]
    else []
  }

  /** A string path with an `enum` but no `required`: anything outside the list fails. */
  function EnumOnlyErrors(path: string, s: string, allowed: seq<string>): (r: seq<ValidatorError>)
    ensures |r| <= 1
    ensures r == [] <==> s in allowed
  {
    if s !in allowed then [ValidatorError(path, "enum")] else []
  }

  /** A required number path with `min` and `max`; `None` is a document without the path. */
  function NumberErrors(path: string, n: Option<Number>, lo: Number, hi: Number): (r: seq<ValidatorError>)
    ensures |r| <= 1
    ensures r == [] <==> n.Some? && lo <= n.value <= hi
  {
    if n.None? then [ValidatorError(path, "required")]
    else if n.value < lo then [ValidatorError(path, "min")]
    else if n.value > hi then [ValidatorError(path, "max")]
    else []
  }

  predicate ElementsPresent(xs: seq<string>, maxLength: Option<nat>) {
    forall i :: 0 <= i < |xs| ==> xs[i] != "" && (maxLength.Some? ==> Text.Utf16Length(xs[i]) <= maxLength.value)
  }

  /** Elements of a string array whose element type is `required` (with an optional
      `maxlength`); element `i` is reported under the path `<path>.<i>`. */
  function ElementErrors(path: string, xs: seq<string>, maxLength: Option<nat>, from: nat): (r: seq<ValidatorError>)
    ensures r == [] <==> ElementsPresent(xs, maxLength)
    ensures |r| <= |xs|
  {
    if xs == [] then []
    else
      var here := StringErrors(path + "." + Text.NatToString(from), xs[0], maxLength);
      var rest := ElementErrors(path, xs[1..], maxLength, from + 1);
      assert forall i :: 1 <= i < |xs| ==> xs[i] == xs[1..][i - 1];
      here + rest
  }

  /** The update validators of a supplied string path; a path not supplied is not checked. */
  function OptString(path: string, v: Option<string>, maxLength: Option<nat>): (r: seq<ValidatorError>)
    ensures r == [] <==> (v.Some? ==> v.value != "" && (maxLength.Some? ==> Text.Utf16Length(v.value) <= maxLength.value))
  {
    if v.Some? then StringErrors(path, v.value, maxLength) else []
  }

  function OptEnum(path: string, v: Option<string>, allowed: seq<string>): (r: seq<ValidatorError>)
    ensures r == [] <==> (v.Some? ==> v.value != "" && v.value in allowed)
  {
    if v.Some? then EnumErrors(path, v.value, allowed) else []
  }

  function OptElements(path: string, v: Option<seq<string>>, maxLength: Option<nat>): (r: seq<ValidatorError>)
    ensures r == [] <==> (v.Some? ==> ElementsPresent(v.value, maxLength))
  {
    if v.Some? then ElementErrors(path, v.value, maxLength, 0) else []
  }

  function OptRange(path: string, v: Option<Number>, lo: Number, hi: Number): (r: seq<ValidatorError>)
    ensures r == [] <==> (v.Some? ==> lo <= v.value <= hi)
  {
    if v.Some? then NumberErrors(path, v, lo, hi) else []
  }

  /** A string path with a `maxlength` and nothing else; the length is counted in UTF-16 code
      units, as JavaScript counts it. */
  function MaxLengthErrors(path: string, s: string, maxLength: nat): (r: seq<ValidatorError>)
    ensures |r| <= 1
    ensures r == [] <==> Text.Utf16Length(s) <= maxLength
  {
    if Text.Utf16Length(s) > maxLength then [ValidatorError(path, "maxlength")] else []
  }

  function OptMaxLength(path: string, v: Option<string>, maxLength: nat): (r: seq<ValidatorError>)
    ensures r == [] <==> (v.Some? ==> Text.Utf16Length(v.value) <= maxLength)
  {
    if v.Some? then MaxLengthErrors(path, v.value, maxLength) else []
  }
}
