/**
 * The schema combinators the frontend uses (zod), specialised to the shapes
 * in frontend/src/zod, and the shared error shape `DefaultError` of
 * frontend/src/zod/index.ts. A schema maps a JSON value to its parsed output
 * (`Some`) or rejects it (`None`); input schemas also report their issues.
 */
module Zod {
  import opened Wrappers
  import opened Json
  import opened Text
  import Decimal

  /** A validation issue: the path of the offending field and its message. */
  datatype Issue = Issue(path: seq<string>, message: string)

  /** zod's default message for a value that is not a string. */
  const NotAString: string := "Invalid input: expected string"
  /** zod's default message for a value that is not an object. */
  const NotAnObject: string := "Invalid input: expected object"
  /** zod's default message for a failed `nonempty()`. */
  const TooSmall: string := "Too small: expected string to have >=1 characters"

  /** The format check of `z.email()`, left abstract. */
  type EmailCheck = string -> bool

  /** `z.string().nonempty()` */
  function NonEmptyString(v: Option<Json>): (r: Option<string>)
    ensures r.Some? <==> v.Some? && v.value.Str? && v.value.s != ""
    ensures r.Some? ==> v == Some(Str(r.value))
  {
    match v
    case Some(Str(s)) => if s != "" then Some(s) else None
    case _ => None
  }

  /** `z.email().nonempty()` */
  function EmailString(v: Option<Json>, isEmail: EmailCheck): (r: Option<string>)
    ensures r.Some? <==> v.Some? && v.value.Str? && v.value.s != "" && isEmail(v.value.s)
    ensures r.Some? ==> v == Some(Str(r.value))
  {
    match NonEmptyString(v)
    case Some(s) => if isEmail(s) then Some(s) else None
    case None => None
  }

  /** `z.string().regex(/^\d{12}$/)` */
  function AadharString(v: Option<Json>): (r: Option<string>)
    ensures r.Some? <==> v.Some? && v.value.Str? && IsAadhar(v.value.s)
    ensures r.Some? ==> v == Some(Str(r.value))
  {
    match v
    case Some(Str(s)) => if IsAadhar(s) then Some(s) else None
    case _ => None
  }

  /** `z.enum(["ok"])`: exactly the string "ok". */
  predicate IsOk(v: Option<Json>) {
    v == Some(Str("ok"))
  }

  /** `Number(text)` on decimal integer text: "" gives 0, otherwise the text must read as an integer. */
  function TextNumber(s: string): (r: Option<int>)
    ensures s == "" ==> r == Some(0)
    ensures s != "" ==> r == Decimal.Parse(s)
  {
    if s == "" then Some(0) else Decimal.Parse(s)
  }

  /**
   * `Number(array)`: the array is first turned into text, its elements joined
   * with ",". Two or more elements leave a comma in the text, which no number
   * has; no element leaves ""; one element leaves that element's text, which is
   * "" for `null`, the digits of a number, the string itself, the inner
   * array's joined text, and "true", "false" or "[object Object]" otherwise.
   */
  function ArrayNumber(items: seq<Json>): (r: Option<int>)
    ensures |items| == 0 ==> r == Some(0)
    ensures |items| >= 2 ==> r.None?
    ensures |items| == 1 && items[0].Num? ==> r == Some(items[0].n)
    ensures |items| == 1 && items[0] == Null ==> r == Some(0)
    ensures |items| == 1 && items[0].Str? ==> r == TextNumber(items[0].s)
    ensures |items| == 1 && items[0].Arr? ==> r == ArrayNumber(items[0].items)
    ensures |items| == 1 && (items[0].Bool? || items[0].Obj?) ==> r.None?
  {
    if |items| == 0 then Some(0)
    else if |items| >= 2 then None
    else
      match items[0]
      case Null => Some(0)
      case Num(n) => Some(n)
      case Str(s) => TextNumber(s)
      case Arr(inner) => ArrayNumber(inner)
      case _ => None
  }

  /**
   * `z.coerce.number()`: JavaScript's `Number(value)` followed by a NaN check.
   * Numbers pass, booleans give 0 or 1, `null` gives 0, text goes through
   * `TextNumber`, arrays through `ArrayNumber`; `undefined` and objects give NaN
   * and are rejected.
   */
  function CoerceNumber(v: Option<Json>): (r: Option<int>)
    ensures v.None? ==> r.None?
    ensures v.Some? && v.value.Num? ==> r == Some(v.value.n)
    ensures v.Some? && v.value.Bool? ==> r == Some(if v.value.b then 1 else 0)
    ensures v == Some(Null) ==> r == Some(0)
    ensures v.Some? && v.value.Str? ==> r == TextNumber(v.value.s)
    ensures v.Some? && v.value.Arr? ==> r == ArrayNumber(v.value.items)
    ensures v.Some? && v.value.Obj? ==> r.None?
  {
    match v
    case None => None
    case Some(Num(n)) => Some(n)
    case Some(Bool(b)) => Some(if b then 1 else 0)
    case Some(Null) => Some(0)
    case Some(Str(s)) => TextNumber(s)
    case Some(Arr(items)) => ArrayNumber(items)
    case Some(Obj(_)) => None
  }

  /** A number written as text, alone or wrapped in one-element arrays, coerces back to itself. */
  lemma CoerceShownNumber(n: int)
    ensures CoerceNumber(Some(Str(Decimal.Show(n)))) == Some(n)
    ensures CoerceNumber(Some(Arr([Str(Decimal.Show(n))]))) == Some(n)
    ensures CoerceNumber(Some(Arr([Arr([Num(n)])]))) == Some(n)
  {
    Decimal.ParseShow(n);
  }

  /** The array cases of `Number`: `[]` and `[null]` give 0, `[true]` and `[1, 2]` give NaN. */
  lemma CoerceArrays()
    ensures CoerceNumber(Some(Arr([]))) == Some(0)
    ensures CoerceNumber(Some(Arr([Null]))) == Some(0)
    ensures CoerceNumber(Some(Arr([Bool(true)]))).None?
    ensures CoerceNumber(Some(Arr([Num(1), Num(2)]))).None?
  {
  }

  /** `DefaultError`: an object whose `message` is a non-empty string. */
  function DefaultError(j: Json): (r: Option<string>)
    ensures r.Some? <==> j.Obj? && "message" in j.fields && j.fields["message"].Str? && j.fields["message"].s != ""
    ensures r.Some? ==> j.fields["message"] == Str(r.value)
  {
    if !j.Obj? then None else NonEmptyString(Member(j, "message"))
  }

  /** Every payload whose `message` is "ok" also has the error shape. */
  lemma OkMessageIsDefaultError(j: Json)
    ensures IsOk(Member(j, "message")) ==> DefaultError(j) == Some("ok")
  {
  }

  /** A payload accepted by a `z.union([Success, DefaultError])` validator. */
  datatype Reply<+T> = Parsed(value: T) | ServerError(message: string)

  /** `z.union([success, DefaultError])`: the success schema first, then the error shape. */
  function Union<T>(success: Option<T>, j: Json): (r: Option<Reply<T>>)
    ensures r.Some? <==> success.Some? || DefaultError(j).Some?
    ensures success.Some? ==> r == Some(Parsed(success.value))
    ensures success.None? && DefaultError(j).Some? ==> r == Some(ServerError(DefaultError(j).value))
  {
    match success
    case Some(v) => Some(Parsed(v))
    case None =>
      match DefaultError(j)
      case Some(m) => Some(ServerError(m))
      case None => None
  }

  /** The issues of a `z.string().nonempty({ error })` field. */
  function NonEmptyIssues(field: string, v: Option<Json>, emptyMessage: string): (r: seq<Issue>)
    ensures r == [] <==> NonEmptyString(v).Some?
    ensures forall i :: 0 <= i < |r| ==> r[i].path == [field]
  {
    match v
    case Some(Str(s)) => if s == "" then [Issue([field], emptyMessage)] else []
    case _ => [Issue([field], NotAString)]
  }

  /** A field is a string: the only failure that stops a refinement from running is a wrong type. */
  predicate IsString(v: Option<Json>) {
    v.Some? && v.value.Str?
  }
}
