/**
 * The self-contained logic of the HTTP handlers in backend/controllers.go:
 * register-input validation, the bearer check of the refresh endpoint, and the
 * query handling and row selection of the paginated data endpoint. Database
 * access, bcrypt and JWT handling are outside the model; the rows the data
 * query returned and the table count enter as inputs.
 */
module Controllers {
  import opened Wrappers
  import opened Octets
  import opened Text
  import opened CodecErrors
  import Aes
  import Params

  /** The JSON body of `POST /register`. */
  datatype UserRegister = UserRegister(
    userName: string,
    email: string,
    password: string,
    confirmPassword: string,
    aadhar: string)

  datatype ValidationError =
    | InvalidAadhar
      /** the error `mail.ParseAddress` returned, as text */
    | BadAddress(reason: string)
    | PasswordMismatch
  {
    function Message(): string {
      match this
      case InvalidAadhar => "invalid Aadhar Number found"
      case BadAddress(reason) => reason
      case PasswordMismatch => "password and confirm password must match"
    }
  }

  /** `mail.ParseAddress` (section 3.4 of RFC 5322), reduced to its error: `None` when the address parses. */
  type AddressParser = string -> Option<string>

  /**
   * `UserRegister.Validate`: the identifier first, then the email address,
   * then the password confirmation; the first failing check is reported.
   */
  function Validate(u: UserRegister, parseAddress: AddressParser): (r: Option<ValidationError>)
    ensures !IsAadhar(u.aadhar) ==> r == Some(InvalidAadhar)
    ensures IsAadhar(u.aadhar) && parseAddress(u.email).Some? ==>
              r == Some(BadAddress(parseAddress(u.email).value))
    ensures IsAadhar(u.aadhar) && parseAddress(u.email).None? && u.password != u.confirmPassword ==>
              r == Some(PasswordMismatch)
    ensures r.None? <==> IsAadhar(u.aadhar) && parseAddress(u.email).None? && u.password == u.confirmPassword
  {
    if !IsAadhar(u.aadhar) then Some(InvalidAadhar)
    else if parseAddress(u.email).Some? then Some(BadAddress(parseAddress(u.email).value))
    else if u.confirmPassword != u.password then Some(PasswordMismatch)
    else None
  }

  /** The user name and the password's content play no part in validation. */
  lemma ValidateIgnoresNameAndPassword(u: UserRegister, parseAddress: AddressParser, name: string, pw: string)
    ensures Validate(u.(userName := name), parseAddress) == Validate(u, parseAddress)
    ensures Validate(u.(password := pw, confirmPassword := pw), parseAddress).None? <==>
              IsAadhar(u.aadhar) && parseAddress(u.email).None?
  {
  }

  /** A JSON error reply: the status code and the `message` field. */
  datatype HttpReply = HttpReply(status: int, message: string)

  const BearerPrefix: string := "Bearer "

  /**
   * The first step of `Refresh`: the token is whatever follows the exact,
   * case-sensitive prefix "Bearer " of the Authorization header (absent
   * headers read as ""); anything else is answered 401.
   */
  function RefreshAuthorization(header: string): (r: Result<string, HttpReply>)
    ensures r.Success? <==> BearerPrefix <= header
    ensures r.Success? ==> header == BearerPrefix + r.value
    ensures r.Failure? ==> r.error == HttpReply(401, "Authorization is missing")
  {
    match CutPrefix(header, BearerPrefix)
    case Some(token) => Success(token)
    case None => Failure(HttpReply(401, "Authorization is missing"))
  }

  /**
   * The prefix is matched exactly: "Bearer " before any token yields that
   * token, while any other seven-character scheme ("bearer ", "Bearer:" and
   * so on) before it is rejected, as is a bare "Bearer".
   */
  lemma BearerPrefixIsExact(token: string, other: string)
    requires |other| == |BearerPrefix| && other != BearerPrefix
    ensures RefreshAuthorization(BearerPrefix + token) == Success(token)
    ensures RefreshAuthorization(other + token).Failure?
    ensures RefreshAuthorization("Bearer").Failure?
  {
    assert (BearerPrefix + token)[|BearerPrefix|..] == token;
    assert (other + token)[..|BearerPrefix|] == other;
  }

  /** The paging parameters `GetData` passes to its query, and the `raw` flag. */
  datatype DataQuery = DataQuery(offset: int, limit: int, raw: bool)

  /**
   * `offset` (minimum 0) and `limit` (minimum 1) through `GetParams`, and
   * `raw`, which is on unless the parameter is exactly "false".
   */
  function ParseDataQuery(query: Params.Values): (q: DataQuery)
    ensures q.offset >= 0 && q.limit >= 0
    ensures q.raw <==> Params.QueryGet(query, "raw") != "false"
    ensures q.offset == Params.GetParams(query, "offset", 0)
    ensures q.limit == Params.GetParams(query, "limit", 1)
  {
    DataQuery(
      Params.GetParams(query, "offset", 0),
      Params.GetParams(query, "limit", 1),
      !(Params.QueryGet(query, "raw") == "false"))
  }

  /** Without parameters the query asks for no rows at all: `limit` parses to 0, not to its minimum 1. */
  lemma EmptyQuery()
    ensures ParseDataQuery(map[]) == DataQuery(0, 0, true)
  {
    Params.MissingIsZero(map[], "offset", 0);
    Params.MissingIsZero(map[], "limit", 1);
  }

  /** A row of the `users` table, and of the `data` list of the reply. */
  datatype UserRow = UserRow(id: int, userName: string, email: string, aadhar: Bytes)

  /** The reply body of `GET /get-data`. */
  datatype DataResponse = DataResponse(message: string, data: seq<UserRow>, total: int)

  /** A row with its stored identifier decrypted through `AesDecrypt`. */
  function DecryptRow(row: UserRow, envKey: Option<Bytes>, suite: Aes.CipherSuite): (r: Outcome<UserRow>)
    ensures r.Ok? ==> r.value.id == row.id && r.value.userName == row.userName && r.value.email == row.email
    // the row decrypts exactly when its identifier does, to the row with the decrypted identifier
    ensures r.Ok? <==> Aes.AesDecrypt(row.aadhar, envKey, suite).Ok?
    ensures r.Ok? ==> r.value == row.(aadhar := Aes.AesDecrypt(row.aadhar, envKey, suite).value)
    // otherwise the decryption's error, or its panic, is the row's
    ensures r.Err? ==> Aes.AesDecrypt(row.aadhar, envKey, suite) == Err(r.error)
    ensures r.Panic? <==> Aes.AesDecrypt(row.aadhar, envKey, suite).Panic?
  {
    var plain :- Aes.AesDecrypt(row.aadhar, envKey, suite);
    Ok(row.(aadhar := plain))
  }

  /** A row whose identifier was stored through `AesEncrypt` decrypts back to the identifier under the same key. */
  lemma DecryptRowOfStored(row: UserRow, plain: Bytes, key: Bytes, iv: Bytes, suite: Aes.CipherSuite)
    requires Aes.Lawful(suite)
    requires Aes.ValidKeyLength(|key|) && |iv| == Aes.IvLength
    requires Aes.AesEncrypt(plain, Some(key), iv, suite).Ok?
    requires row.aadhar == Aes.AesEncrypt(plain, Some(key), iv, suite).value
    ensures DecryptRow(row, Some(key), suite) == Ok(row.(aadhar := plain))
  {
    Aes.EnvRoundTrip(plain, key, iv, suite);
  }

  /** The fetched row at some index decrypts to `out`. */
  ghost predicate DecryptsTo(rows: seq<UserRow>, out: UserRow, envKey: Option<Bytes>, suite: Aes.CipherSuite) {
    exists i :: 0 <= i < |rows| && DecryptRow(rows[i], envKey, suite) == Ok(out)
  }

  /** What a row after the first decrypts to, some row decrypts to. */
  lemma DecryptsToTail(rows: seq<UserRow>, envKey: Option<Bytes>, suite: Aes.CipherSuite, o: UserRow)
    requires |rows| > 0
    requires DecryptsTo(rows[1..], o, envKey, suite)
    ensures DecryptsTo(rows, o, envKey, suite)
  {
    var i :| 0 <= i < |rows[1..]| && DecryptRow(rows[1..][i], envKey, suite) == Ok(o);
    assert rows[i + 1] == rows[1..][i];
    assert 0 <= i + 1 < |rows| && DecryptRow(rows[i + 1], envKey, suite) == Ok(o);
  }

  /** Some row panics exactly when the first one does or one after it does. */
  lemma PanicSplit(rows: seq<UserRow>, envKey: Option<Bytes>, suite: Aes.CipherSuite)
    requires |rows| > 0
    ensures (exists i :: 0 <= i < |rows| && DecryptRow(rows[i], envKey, suite).Panic?) <==>
            (DecryptRow(rows[0], envKey, suite).Panic? ||
             exists i :: 0 <= i < |rows[1..]| && DecryptRow(rows[1..][i], envKey, suite).Panic?)
  {
    if exists i :: 0 <= i < |rows[1..]| && DecryptRow(rows[1..][i], envKey, suite).Panic? {
      var i :| 0 <= i < |rows[1..]| && DecryptRow(rows[1..][i], envKey, suite).Panic?;
      assert rows[i + 1] == rows[1..][i];
    }
    if exists i :: 0 <= i < |rows| && DecryptRow(rows[i], envKey, suite).Panic? {
      var i :| 0 <= i < |rows| && DecryptRow(rows[i], envKey, suite).Panic?;
      if i > 0 {
        assert rows[1..][i - 1] == rows[i];
      }
    }
  }

  /** Every row of `out` is what some row decrypts to, when the first row and the rest give it. */
  lemma KeptAllDecrypted(rows: seq<UserRow>, envKey: Option<Bytes>, suite: Aes.CipherSuite, tail: seq<UserRow>, out: seq<UserRow>)
    requires |rows| > 0
    requires forall k :: 0 <= k < |tail| ==> DecryptsTo(rows[1..], tail[k], envKey, suite)
    requires DecryptRow(rows[0], envKey, suite).Ok? ==> out == [DecryptRow(rows[0], envKey, suite).value] + tail
    requires !DecryptRow(rows[0], envKey, suite).Ok? ==> out == tail
    ensures forall k :: 0 <= k < |out| ==> DecryptsTo(rows, out[k], envKey, suite)
  {
    var shift := if DecryptRow(rows[0], envKey, suite).Ok? then 1 else 0;
    forall k | 0 <= k < |out|
      ensures DecryptsTo(rows, out[k], envKey, suite)
    {
      if k < shift {
        assert 0 <= 0 < |rows| && DecryptRow(rows[0], envKey, suite) == Ok(out[k]);
      } else {
        assert out[k] == tail[k - shift];
        DecryptsToTail(rows, envKey, suite, tail[k - shift]);
      }
    }
  }

  /** Every row that decrypts, decrypts into `out`, when the first one and the rest do. */
  lemma DecryptedAllKept(rows: seq<UserRow>, envKey: Option<Bytes>, suite: Aes.CipherSuite, tail: seq<UserRow>, out: seq<UserRow>)
    requires |rows| > 0
    requires forall i :: 0 <= i < |rows[1..]| && DecryptRow(rows[1..][i], envKey, suite).Ok? ==>
               DecryptRow(rows[1..][i], envKey, suite).value in tail
    requires DecryptRow(rows[0], envKey, suite).Ok? ==> out == [DecryptRow(rows[0], envKey, suite).value] + tail
    requires !DecryptRow(rows[0], envKey, suite).Ok? ==> out == tail
    ensures forall i :: 0 <= i < |rows| && DecryptRow(rows[i], envKey, suite).Ok? ==>
              DecryptRow(rows[i], envKey, suite).value in out
  {
    forall i | 0 <= i < |rows| && DecryptRow(rows[i], envKey, suite).Ok?
      ensures DecryptRow(rows[i], envKey, suite).value in out
    {
      if i > 0 {
        assert rows[1..][i - 1] == rows[i];
      }
    }
  }

  /**
   * The non-raw loop of `GetData`: rows whose identifier fails to decrypt
   * are skipped, the rest keep their order with the decrypted identifier; a
   * panic inside `AesDecrypt` aborts the handler.
   */
  function DecryptRows(rows: seq<UserRow>, envKey: Option<Bytes>, suite: Aes.CipherSuite): (r: Outcome<seq<UserRow>>)
    ensures !r.Err?
    ensures r.Panic? <==> exists i :: 0 <= i < |rows| && DecryptRow(rows[i], envKey, suite).Panic?
    ensures r.Ok? ==> |r.value| <= |rows|
    ensures r.Ok? ==> forall k :: 0 <= k < |r.value| ==> DecryptsTo(rows, r.value[k], envKey, suite)
    ensures r.Ok? ==> forall i :: 0 <= i < |rows| && DecryptRow(rows[i], envKey, suite).Ok? ==>
              DecryptRow(rows[i], envKey, suite).value in r.value
  {
    if |rows| == 0 then Ok([])
    else
      var head := DecryptRow(rows[0], envKey, suite);
      var rest := DecryptRows(rows[1..], envKey, suite);
      PanicSplit(rows, envKey, suite);
      if head.Panic? || rest.Panic? then
        Panic
      else
        var tail := rest.value;
        var out := if head.Ok? then [head.value] + tail else tail;
        KeptAllDecrypted(rows, envKey, suite, tail, out);
        DecryptedAllKept(rows, envKey, suite, tail, out);
        Ok(out)
  }

  /** Rows in increasing id order stay in increasing id order after the non-raw filter. */
  lemma {:induction false} DecryptRowsKeepsOrder(rows: seq<UserRow>, envKey: Option<Bytes>, suite: Aes.CipherSuite)
    requires forall i, j :: 0 <= i < j < |rows| ==> rows[i].id < rows[j].id
    requires DecryptRows(rows, envKey, suite).Ok?
    ensures var out := DecryptRows(rows, envKey, suite).value;
            forall i, j :: 0 <= i < j < |out| ==> out[i].id < out[j].id
  {
    if |rows| > 0 {
      var head := DecryptRow(rows[0], envKey, suite);
      var rest := DecryptRows(rows[1..], envKey, suite);
      assert rest.Ok? && !head.Panic?;
      var tail := rest.value;
      var out := DecryptRows(rows, envKey, suite).value;
      assert out == if head.Ok? then [head.value] + tail else tail;
      assert forall i, j :: 0 <= i < j < |rows[1..]| ==> rows[1..][i].id < rows[1..][j].id;
      DecryptRowsKeepsOrder(rows[1..], envKey, suite);
      if head.Ok? {
        FirstBelowDecrypted(rows, envKey, suite, tail);
        SortedCons(head.value, tail);
      }
    }
  }

  /** In id-ordered rows, the first id is below that of anything a later row decrypts to. */
  lemma FirstBelowDecrypted(rows: seq<UserRow>, envKey: Option<Bytes>, suite: Aes.CipherSuite, tail: seq<UserRow>)
    requires |rows| > 0
    requires forall i, j :: 0 <= i < j < |rows| ==> rows[i].id < rows[j].id
    requires forall k :: 0 <= k < |tail| ==> DecryptsTo(rows[1..], tail[k], envKey, suite)
    ensures forall k :: 0 <= k < |tail| ==> rows[0].id < tail[k].id
  {
    forall k | 0 <= k < |tail|
      ensures rows[0].id < tail[k].id
    {
      var i :| 0 <= i < |rows[1..]| && DecryptRow(rows[1..][i], envKey, suite) == Ok(tail[k]);
      assert rows[1..][i] == rows[i + 1];
    }
  }

  /** A row below every row of an id-ordered sequence keeps it id-ordered when put in front. */
  lemma SortedCons(first: UserRow, rest: seq<UserRow>)
    requires forall i, j :: 0 <= i < j < |rest| ==> rest[i].id < rest[j].id
    requires forall k :: 0 <= k < |rest| ==> first.id < rest[k].id
    ensures var all := [first] + rest;
            forall i, j :: 0 <= i < j < |all| ==> all[i].id < all[j].id
  {
    var all := [first] + rest;
    assert forall k :: 1 <= k < |all| ==> all[k] == rest[k - 1];
  }

  /**
   * The reply of `GetData` once the rows are fetched: raw mode returns the
   * rows as stored, non-raw mode the decryptable ones decrypted; `total` is
   * the table count whatever the paging.
   */
  function GetDataReply(fetched: seq<UserRow>, totalCount: int, query: Params.Values,
                        envKey: Option<Bytes>, suite: Aes.CipherSuite): (r: Outcome<DataResponse>)
    ensures !r.Err?
    ensures r.Ok? ==> r.value.message == "ok" && r.value.total == totalCount
    ensures ParseDataQuery(query).raw ==> r == Ok(DataResponse("ok", fetched, totalCount))
    ensures !ParseDataQuery(query).raw ==> r.Ok? == DecryptRows(fetched, envKey, suite).Ok?
    ensures !ParseDataQuery(query).raw && r.Ok? ==> r.value.data == DecryptRows(fetched, envKey, suite).value
  {
    if ParseDataQuery(query).raw then
      Ok(DataResponse("ok", fetched, totalCount))
    else
      var rows :- DecryptRows(fetched, envKey, suite);
      Ok(DataResponse("ok", rows, totalCount))
  }
}
