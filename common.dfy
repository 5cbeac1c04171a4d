/** Shared vocabulary of the blood-request backend and its web client:
    optional values, error-carrying results, document identities,
    stored coordinates and clock units. */
module Common {

  /** A field that may be absent from a document or a request body. */
  datatype Option<+T> = None | Some(value: T)

  /** The outcome of a handler: a value, or the error it reports to the caller. */
  datatype Result<+T, +E> = Ok(value: T) | Err(error: E)

  /** Document identities (MongoDB ObjectIds) as their string form, since the
      source compares them with `toString()`. */
  type Id = string

  /** A GeoJSON point exactly as it is stored: `coordinates: [longitude, latitude]`.
      Coordinates are kept abstract (fixed-point integers); no arithmetic is done on them. */
  datatype Point = Point(lon: int, lat: int)

  /** The clock: `Date` values are milliseconds since the epoch. */
  const HourMs: int := 60 * 60 * 1000

  /** Every element of `s` is distinct. */
  predicate NoDuplicates<T(==)>(s: seq<T>)
  {
    forall i, j :: 0 <= i < j < |s| ==> s[i] != s[j]
  }

  /** `sub` is `s` with some elements dropped and the rest in their original order. */
  predicate IsSubsequence<T(==)>(sub: seq<T>, s: seq<T>)
    decreases |s|
  {
    if sub == [] then true
    else if s == [] then false
    else if sub[0] == s[0] then IsSubsequence(sub[1..], s[1..])
    else IsSubsequence(sub, s[1..])
  }
}
