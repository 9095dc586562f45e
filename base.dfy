/** Shared vocabulary: optional values, results, identifiers. */
module Base {

  datatype Option<+T> = None | Some(value: T) {
    function GetOr(default: T): T {
      match this
      case Some(v) => v
      case None => default
    }
  }

  datatype Result<+T, +E> = Ok(value: T) | Err(error: E)

  /** A JavaScript number as the schemas see it: not necessarily whole (a team size of 1.5
      passes `min(1)`). NaN, the infinities and double rounding are not modelled. */
  type Number = real

  /** A stored document identifier (a MongoDB ObjectId), abstracted to a number. */
  type Id = nat

  /** An identifier as it arrives in a request: either a string that casts to an ObjectId,
      or a raw string that does not (casting it in a query raises a CastError). A string
      that casts is `canonical` when it is spelled exactly as the ObjectId prints itself
      (24 lower-case hexadecimal digits); another spelling of the same ObjectId, such as
      upper-case digits, casts to the same id but differs from its text. */
  datatype Key = Oid(id: Id, canonical: bool) | Malformed(raw: string)

  /** The request string is non-empty (`z.string().min(1)`); an ObjectId's text never is. */
  predicate NonEmptyKey(k: Key) {
    k.Oid? || k.raw != ""
  }

  /** A query on an ObjectId path (`findById(raw)`, `find({ path: raw })`): the string is
      cast first, so every spelling of the id matches it. */
  predicate Denotes(stored: Id, k: Key) {
    k.Oid? && k.id == stored
  }

  /** `stored.toString() === raw`: only the canonical spelling equals an ObjectId's text,
      and a malformed string never does. */
  predicate SameId(stored: Id, k: Key) {
    k == Oid(stored, true)
  }

  /** Equal text implies a matching query, but a matching query does not imply equal text. */
  lemma SameIdDenotes(stored: Id, k: Key)
    ensures SameId(stored, k) ==> Denotes(stored, k)
    ensures Denotes(stored, k) && !SameId(stored, k) <==> k == Oid(stored, false)
  {
  }

  /** JavaScript `value || fallback` for an optional string: `undefined` and `''` are falsy. */
  function OrElse(s: Option<string>, fallback: string): string {
    if s.Some? && s.value != "" then s.value else fallback
  }

  /** JavaScript truthiness of an optional query string (`if (category) ...`). */
  predicate Truthy(s: Option<string>) {
    s.Some? && s.value != ""
  }
}
