/** JSON-like values as the frontend receives them from `response.data` or a form. */
module Json {
  import opened Wrappers

  /** JavaScript numbers are modelled by integers. */
  datatype Json =
    | Null
    | Bool(b: bool)
    | Num(n: int)
    | Str(s: string)
    | Arr(items: seq<Json>)
    | Obj(fields: map<string, Json>)

  /** `value[key]`; `None` stands for `undefined` (no such key, or not an object). */
  function Member(j: Json, key: string): (r: Option<Json>)
    ensures r.Some? <==> j.Obj? && key in j.fields
  {
    if j.Obj? && key in j.fields then Some(j.fields[key]) else None
  }
}
