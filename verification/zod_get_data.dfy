/**
 * The paginated-data contracts of frontend/src/zod/get-data.ts, with the
 * normalisation of the dual-format identifier: twelve digits are shown as
 * `XXXX-XXXX-XXXX`, anything else (an encrypted value, an already grouped
 * value) passes through.
 */
module ZodGetData {
  import opened Wrappers
  import opened Json
  import opened Text
  import opened Zod

  /** The `aadhar` transform of `UserData`. */
  function NormalizeAadhar(s: string): (r: string)
    ensures !IsAadhar(s) ==> r == s
    ensures IsAadhar(s) ==> |r| == 14 && r[4] == '-' && r[9] == '-'
    ensures IsAadhar(s) ==> r[..4] == s[..4] && r[5..9] == s[4..8] && r[10..] == s[8..]
  {
    if IsAadhar(s) then s[..4] + "-" + s[4..8] + "-" + s[8..] else s
  }

  /** The transform never produces a value that matches the pattern again, so applying it twice changes nothing. */
  lemma NormalizeIdempotent(s: string)
    ensures !IsAadhar(NormalizeAadhar(s))
    ensures NormalizeAadhar(NormalizeAadhar(s)) == NormalizeAadhar(s)
  {
    var r := NormalizeAadhar(s);
    if IsAadhar(s) {
      assert !Decimal.IsDigit(r[4]);
    }
  }

  /** Deleting the two hyphens of a grouped value gives back the twelve digits. */
  lemma NormalizeDropsOnlyHyphens(s: string)
    requires IsAadhar(s)
    ensures Without(NormalizeAadhar(s), '-') == s
  {
    var a, b, c := s[..4], s[4..8], s[8..];
    assert '-' !in a && '-' !in b && '-' !in c by {
      forall i | 0 <= i < 12 ensures s[i] != '-' {
        assert Decimal.IsDigit(s[i]);
      }
    }
    WithoutAppend(a + "-" + b + "-", c, '-');
    WithoutAppend(a + "-" + b, "-", '-');
    WithoutAppend(a + "-", b, '-');
    WithoutAppend(a, "-", '-');
    WithoutAbsent(a, '-');
    WithoutAbsent(b, '-');
    WithoutAbsent(c, '-');
    assert a + b + c == s;
  }

  /** The two formats are indistinguishable after the transform: raw digits and their grouped form normalise alike. */
  lemma NormalizeMergesFormats(s: string)
    requires IsAadhar(s)
    ensures NormalizeAadhar(NormalizeAadhar(s)) == NormalizeAadhar(s)
    ensures NormalizeAadhar(s) != s
  {
    NormalizeIdempotent(s);
  }

  /** A validated row of the data table. */
  datatype DataRow = DataRow(id: int, userName: string, email: string, aadhar: string)

  /** `UserData`: coerced `id`, non-empty `user_name`, valid `email`, any `aadhar` string, normalised. */
  function UserData(j: Json, isEmail: EmailCheck): (r: Option<DataRow>)
    ensures r.Some? <==>
              && j.Obj?
              && CoerceNumber(Member(j, "id")).Some?
              && NonEmptyString(Member(j, "user_name")).Some?
              && EmailString(Member(j, "email"), isEmail).Some?
              && IsString(Member(j, "aadhar"))
    ensures r.Some? ==>
              && r.value.id == CoerceNumber(Member(j, "id")).value
              && Member(j, "user_name") == Some(Str(r.value.userName))
              && Member(j, "email") == Some(Str(r.value.email))
              && r.value.aadhar == NormalizeAadhar(Member(j, "aadhar").value.s)
  {
    if !j.Obj? then None
    else
      match (CoerceNumber(Member(j, "id")), NonEmptyString(Member(j, "user_name")),
             EmailString(Member(j, "email"), isEmail), Member(j, "aadhar"))
      case (Some(id), Some(name), Some(email), Some(Str(aadhar))) =>
        Some(DataRow(id, name, email, NormalizeAadhar(aadhar)))
      case _ => None
  }

  /** `z.array(UserData)`: every element must parse; the parsed rows keep their order. */
  function ParseRows(items: seq<Json>, isEmail: EmailCheck): (r: Option<seq<DataRow>>)
    ensures r.Some? <==> forall i :: 0 <= i < |items| ==> UserData(items[i], isEmail).Some?
    ensures r.Some? ==> |r.value| == |items|
    ensures r.Some? ==> forall i :: 0 <= i < |items| ==> r.value[i] == UserData(items[i], isEmail).value
  {
    if |items| == 0 then Some([])
    else
      var rest := ParseRows(items[1..], isEmail);
      assert forall i :: 1 <= i < |items| ==> items[i] == items[1..][i - 1];
      match (UserData(items[0], isEmail), rest)
      case (Some(row), Some(rows)) => Some([row] + rows)
      case _ => None
  }

  /** The parsed body of a successful `GET /get-data`. */
  datatype DataPage = DataPage(message: string, data: seq<DataRow>, total: int)

  /** `GetDataSuccess`: `message` exactly "ok", a `data` array of rows, a numeric `total` (any sign). */
  function GetDataSuccess(j: Json, isEmail: EmailCheck): (r: Option<DataPage>)
    ensures r.Some? <==>
              && j.Obj? && IsOk(Member(j, "message"))
              && Member(j, "data").Some? && Member(j, "data").value.Arr?
              && ParseRows(Member(j, "data").value.items, isEmail).Some?
              && Member(j, "total").Some? && Member(j, "total").value.Num?
    ensures r.Some? ==>
              && r.value.message == "ok"
              && r.value.total == Member(j, "total").value.n
              && |r.value.data| == |Member(j, "data").value.items|
              && r.value.data == ParseRows(Member(j, "data").value.items, isEmail).value
    // each row is the parse of the reply's row at the same position
    ensures r.Some? ==>
              forall i :: 0 <= i < |r.value.data| ==>
                r.value.data[i] == UserData(Member(j, "data").value.items[i], isEmail).value
  {
    if !j.Obj? || !IsOk(Member(j, "message")) then None
    else
      match (Member(j, "data"), Member(j, "total"))
      case (Some(Arr(items)), Some(Num(total))) =>
        (match ParseRows(items, isEmail)
         case Some(rows) => Some(DataPage("ok", rows, total))
         case None => None)
      case _ => None
  }

  /** A negative `total` is accepted. */
  lemma NegativeTotalAccepted(isEmail: EmailCheck)
    ensures GetDataSuccess(Obj(map["message" := Str("ok"), "data" := Arr([]), "total" := Num(-1)]), isEmail)
              == Some(DataPage("ok", [], -1))
  {
    var j := Obj(map["message" := Str("ok"), "data" := Arr([]), "total" := Num(-1)]);
    assert Member(j, "data") == Some(Arr([]));
    assert Member(j, "total") == Some(Num(-1));
  }

  /** `GetDataValidator = z.union([GetDataSuccess, DefaultError])`; it accepts exactly the error shape. */
  function GetDataValidator(j: Json, isEmail: EmailCheck): (r: Option<Reply<DataPage>>)
    ensures r.Some? <==> GetDataSuccess(j, isEmail).Some? || DefaultError(j).Some?
    ensures r.Some? <==> DefaultError(j).Some?
    ensures GetDataSuccess(j, isEmail).Some? ==> r == Some(Parsed(GetDataSuccess(j, isEmail).value))
  {
    OkMessageIsDefaultError(j);
    Union(GetDataSuccess(j, isEmail), j)
  }
}
