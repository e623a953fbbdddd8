/** Integer query parameters (`GetParams` in backend/utils/params.go). */
module Params {
  import opened Wrappers
  import opened Decimal

  /** `url.Values`: each key maps to the list of its values, in query order. */
  type Values = map<string, seq<string>>

  /** `url.Values.Get(key)`: the first value, or "" when the key is absent or has none. */
  function QueryGet(query: Values, key: string): (r: string)
    ensures key !in query || query[key] == [] ==> r == ""
    ensures key in query && query[key] != [] ==> r == query[key][0]
  {
    if key in query && |query[key]| > 0 then query[key][0] else ""
  }

  /**
   * `GetParams(query, key, minValue)`: a value `strconv.Atoi` rejects (missing,
   * empty, not an integer, out of the 64-bit range) gives 0 rather than
   * `minValue`; an accepted value is raised to at least `minValue`.
   */
  function GetParams(query: Values, key: string, minValue: int): (r: int)
    ensures Atoi(QueryGet(query, key)).None? ==> r == 0
    ensures Atoi(QueryGet(query, key)).Some? ==> r >= minValue
    ensures Atoi(QueryGet(query, key)).Some? ==> r == minValue || r == Atoi(QueryGet(query, key)).value
    ensures Atoi(QueryGet(query, key)).Some? && Atoi(QueryGet(query, key)).value >= minValue ==>
              r == Atoi(QueryGet(query, key)).value
  {
    match Atoi(QueryGet(query, key))
    case None => 0
    case Some(v) => if minValue > v then minValue else v
  }

  /** A missing parameter gives 0 whatever its minimum. */
  lemma MissingIsZero(query: Values, key: string, minValue: int)
    requires key !in query
    ensures GetParams(query, key, minValue) == 0
  {
    assert Parse("") == None;
  }

  /** Rendering an in-range integer as the parameter's text and reading it back clamps it. */
  lemma ReadsBackRendered(query: Values, key: string, minValue: int, n: int)
    requires Int64Min <= n <= Int64Max
    requires key in query && query[key] != [] && query[key][0] == Show(n)
    ensures GetParams(query, key, minValue) == if n >= minValue then n else minValue
  {
    AtoiShow(n);
  }
}
