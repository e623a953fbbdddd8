/**
 * The request flows of frontend/src/hooks: login and register (validate the
 * form, post it, validate the reply, store tokens) with their shared error
 * classification, and the paginated data query.
 */
module Hooks {
  import opened Wrappers
  import opened Json
  import opened Text
  import opened Credentials
  import opened Zod
  import opened SessionClient
  import ZodLogin
  import ZodRegister
  import ZodGetData

  /** Why a flow failed: the form was rejected before sending, or the request failed. */
  datatype FlowError = InputInvalid(issues: seq<Issue>) | Failed(failure: ClientError)

  /** A flow's effect: the store afterwards, its result and the requests it sent. */
  datatype Run<+T> = Run(storage: Storage, result: Result<T, FlowError>, sent: seq<Config>)

  /** A JSON request through the client, with the client's default headers. */
  function JsonRequest(verb: string, url: string, params: map<string, Json>, body: Option<Json>): (r: Config)
    ensures r.url == Some(url) && r.headers == Some(DefaultHeaders) && !r.retry
    ensures r.params == params && r.body == body && r.verb == verb
  {
    Config(verb, Some(url), Some(DefaultHeaders), params, body, false)
  }

  /** The login and register addresses are on the interceptor's skip list. */
  lemma AuthUrlsSkipRefresh()
    ensures SkipRefresh(Some(LoginUrl)) && SkipRefresh(Some(RegisterUrl)) && SkipRefresh(Some(RefreshUrl))
  {
    ContainsSelf(LoginUrl);
    ContainsSelf(RegisterUrl);
    ContainsSelf(RefreshUrl);
  }

  /** The `login` mutation. */
  function Login(st: Storage, data: Json, net: Transport): (r: Run<string>)
    // an invalid form sends nothing and touches nothing
    ensures ZodLogin.LoginInput(data).Failure? ==>
              r == Run(st, Failure(InputInvalid(ZodLogin.LoginInput(data).error)), [])
    ensures ZodLogin.LoginInput(data).Success? ==>
              r.sent == [AttachAuth(st, JsonRequest("POST", LoginUrl, map[], Some(ZodLogin.LoginInput(data).value.ToJson())))]
    // success: the reply passed `LoginSuccess`, both tokens come from it, and the user is logged in
    ensures r.result.Success? ==>
              && |r.sent| == 1 && net(r.sent[0]).Some?
              && ZodLogin.LoginSuccess(net(r.sent[0]).value.data).Some?
              && r.storage == StoreTokens(st, ZodLogin.LoginSuccess(net(r.sent[0]).value.data).value.access,
                                          ZodLogin.LoginSuccess(net(r.sent[0]).value.data).value.refresh)
              && r.result.value == "ok"
              && IsLogged(r.storage)
    // every failure leaves the store as it was
    ensures r.result.Failure? ==> r.storage == st
    // a 2xx reply that fails `LoginSuccess` is a schema failure
    ensures |r.sent| == 1 && Fetch(r.sent[0], net).Success? && ZodLogin.LoginSuccess(net(r.sent[0]).value.data).None? ==>
              r.result == Failure(Failed(SchemaRejected))
    // and conversely: a 2xx reply that passes `LoginSuccess` stores both of its tokens and succeeds
    ensures ZodLogin.LoginInput(data).Success? && Fetch(r.sent[0], net).Success?
            && ZodLogin.LoginSuccess(net(r.sent[0]).value.data).Some? ==>
              && r.result == Success("ok")
              && r.storage == StoreTokens(st, ZodLogin.LoginSuccess(net(r.sent[0]).value.data).value.access,
                                          ZodLogin.LoginSuccess(net(r.sent[0]).value.data).value.refresh)
    // a login reply outside 2xx is never refreshed: it is the rejection, and the store is untouched
    ensures ZodLogin.LoginInput(data).Success? && Fetch(r.sent[0], net).Failure? ==>
              r == Run(st, Failure(Failed(Axios(Fetch(r.sent[0], net).error))), r.sent)
  {
    match ZodLogin.LoginInput(data)
    case Failure(issues) => Run(st, Failure(InputInvalid(issues)), [])
    case Success(form) =>
      var request := JsonRequest("POST", LoginUrl, map[], Some(form.ToJson()));
      AuthUrlsSkipRefresh();
      var exchange := Send(st, request, net);
      match exchange.result
      case Failure(e) => Run(exchange.storage, Failure(Failed(e)), exchange.sent)
      case Success(resp) =>
        match ZodLogin.LoginSuccess(resp.data)
        case None => Run(exchange.storage, Failure(Failed(SchemaRejected)), exchange.sent)
        case Some(tokens) =>
          LoginLogout(exchange.storage, tokens.access, tokens.refresh);
          Run(StoreTokens(exchange.storage, tokens.access, tokens.refresh), Success(tokens.message), exchange.sent)
  }

  /** The `register` mutation. */
  function Register(st: Storage, data: Json, isEmail: EmailCheck, net: Transport): (r: Run<bool>)
    // the credential store is never written
    ensures r.storage == st
    ensures ZodRegister.RegisterInput(data, isEmail).Failure? ==>
              r.result == Failure(InputInvalid(ZodRegister.RegisterInput(data, isEmail).error)) && r.sent == []
    ensures ZodRegister.RegisterInput(data, isEmail).Success? ==>
              r.sent == [AttachAuth(st, JsonRequest("POST", RegisterUrl, map[], Some(ZodRegister.RegisterInput(data, isEmail).value.ToJson())))]
    // success exactly when the form is valid and the 2xx reply passes `RegisterSuccess`
    ensures r.result.Success? <==>
              && ZodRegister.RegisterInput(data, isEmail).Success?
              && Fetch(r.sent[0], net).Success?
              && ZodRegister.RegisterSuccess(net(r.sent[0]).value.data).Some?
    ensures r.result.Success? ==> r.result.value
    // a reply outside 2xx is never refreshed: it is the rejection, so `onError` sees the server's message
    ensures ZodRegister.RegisterInput(data, isEmail).Success? && Fetch(r.sent[0], net).Failure? ==>
              r.result == Failure(Failed(Axios(Fetch(r.sent[0], net).error)))
    // a 2xx reply that fails `RegisterSuccess` is a schema failure
    ensures ZodRegister.RegisterInput(data, isEmail).Success? && Fetch(r.sent[0], net).Success?
            && ZodRegister.RegisterSuccess(net(r.sent[0]).value.data).None? ==>
              r.result == Failure(Failed(SchemaRejected))
  {
    match ZodRegister.RegisterInput(data, isEmail)
    case Failure(issues) => Run(st, Failure(InputInvalid(issues)), [])
    case Success(form) =>
      var request := JsonRequest("POST", RegisterUrl, map[], Some(form.ToJson()));
      AuthUrlsSkipRefresh();
      var exchange := Send(st, request, net);
      match exchange.result
      case Failure(e) => Run(st, Failure(Failed(e)), exchange.sent)
      case Success(resp) =>
        match ZodRegister.RegisterSuccess(resp.data)
        case None => Run(st, Failure(Failed(SchemaRejected)), exchange.sent)
        case Some(_) => Run(st, Success(true), exchange.sent)
  }

  /** What the mutations' `onError` calls. */
  datatype Handler = OnError(message: string) | OnFailure

  /**
   * The `onError` of both mutations: a failed HTTP exchange whose reply body
   * has the error shape shows that message; everything else is a failure.
   */
  function Classify(err: FlowError): (r: Handler)
    ensures r.OnError? <==>
              && err.Failed? && err.failure.Axios? && err.failure.error.response.Some?
              && DefaultError(err.failure.error.response.value.data).Some?
    ensures r.OnError? ==> r.message != "" && r == OnError(DefaultError(err.failure.error.response.value.data).value)
  {
    match err
    case Failed(Axios(HttpError(_, Some(resp)))) =>
      (match DefaultError(resp.data)
       case Some(message) => OnError(message)
       case None => OnFailure)
    case _ => OnFailure
  }

  /** A login reply outside 2xx with the error shape shows the server's message. */
  lemma LoginServerMessageShown(st: Storage, data: Json, net: Transport, message: string)
    requires ZodLogin.LoginInput(data).Success?
    requires var request := AttachAuth(st, JsonRequest("POST", LoginUrl, map[], Some(ZodLogin.LoginInput(data).value.ToJson())));
             && net(request).Some? && !(200 <= net(request).value.status < 300)
             && DefaultError(net(request).value.data) == Some(message)
    ensures Login(st, data, net).result.Failure?
    ensures Classify(Login(st, data, net).result.error) == OnError(message)
    ensures Login(st, data, net).storage == st
  {
  }

  /** A register reply outside 2xx with the error shape shows the server's message. */
  lemma RegisterServerMessageShown(st: Storage, data: Json, isEmail: EmailCheck, net: Transport, message: string)
    requires ZodRegister.RegisterInput(data, isEmail).Success?
    requires var request := AttachAuth(st, JsonRequest("POST", RegisterUrl, map[], Some(ZodRegister.RegisterInput(data, isEmail).value.ToJson())));
             && net(request).Some? && !(200 <= net(request).value.status < 300)
             && DefaultError(net(request).value.data) == Some(message)
    ensures Register(st, data, isEmail, net).result.Failure?
    ensures Classify(Register(st, data, isEmail, net).result.error) == OnError(message)
  {
  }

  /** A rejected form, a rejected reply and a missing refresh token all land in `onFailure`. */
  lemma NonHttpErrorsAreFailures(issues: seq<Issue>)
    ensures Classify(InputInvalid(issues)) == OnFailure
    ensures Classify(Failed(SchemaRejected)) == OnFailure
    ensures Classify(Failed(Plain("Refresh Token not found"))) == OnFailure
  {
  }

  /** The query parameters of `getData`. */
  function DataParams(pageIndex: int, pageSize: int, raw: bool): (r: map<string, Json>)
    ensures r.Keys == {"offset", "limit", "raw"}
    ensures r["offset"] == Num(pageIndex * pageSize)
    ensures r["limit"] == Num(pageSize) && r["raw"] == Bool(raw)
  {
    map["offset" := Num(pageIndex * pageSize), "limit" := Num(pageSize), "raw" := Bool(raw)]
  }

  /** The `getData` query: one page of rows, parsed with `GetDataSuccess`. */
  function GetData(st: Storage, pageIndex: int, pageSize: int, raw: bool, isEmail: EmailCheck, net: Transport)
    : (r: Run<ZodGetData.DataPage>)
    ensures 1 <= |r.sent| <= 3
    ensures r.sent[0] == AttachAuth(st, JsonRequest("GET", GetDataUrl, DataParams(pageIndex, pageSize, raw), None))
    // a replay after a refresh carries the same parameters
    ensures |r.sent| == 3 ==> r.sent[2].params == DataParams(pageIndex, pageSize, raw) && r.sent[2].retry
    // success is exactly a reply that parses as `GetDataSuccess`, and the page is its parse
    ensures r.result.Success? ==>
              && net(r.sent[|r.sent| - 1]).Some?
              && ZodGetData.GetDataSuccess(net(r.sent[|r.sent| - 1]).value.data, isEmail) == Some(r.result.value)
    // and conversely: a 2xx last reply (not a refresh call's) that parses is the page
    ensures |r.sent| != 2 && Fetch(r.sent[|r.sent| - 1], net).Success?
            && ZodGetData.GetDataSuccess(net(r.sent[|r.sent| - 1]).value.data, isEmail).Some? ==>
              r.result == Success(ZodGetData.GetDataSuccess(net(r.sent[|r.sent| - 1]).value.data, isEmail).value)
    // a 2xx last reply that does not parse is a schema failure
    ensures |r.sent| != 2 && Fetch(r.sent[|r.sent| - 1], net).Success?
            && ZodGetData.GetDataSuccess(net(r.sent[|r.sent| - 1]).value.data, isEmail).None? ==>
              r.result == Failure(Failed(SchemaRejected))
    // a replay that fails is rejected with its own error
    ensures |r.sent| == 3 && Fetch(r.sent[2], net).Failure? ==>
              r.result == Failure(Failed(Axios(Fetch(r.sent[2], net).error)))
    ensures r.result.Failure? ==> r.result.error.Failed?
    // the store is the client's: untouched without a refresh, cleared by a refused one,
    // and holding the new access token after a granted one
    ensures r.storage == Send(st, JsonRequest("GET", GetDataUrl, DataParams(pageIndex, pageSize, raw), None), net).storage
    ensures |r.sent| == 1 ==> r.storage == st
    ensures |r.sent| == 2 ==> r.storage == ClearTokens(st) && !IsLogged(r.storage)
    ensures |r.sent| == 3 ==>
              && GetItem(st, RefreshKey).Some? && RefreshGranted(GetItem(st, RefreshKey).value, net)
              && r.storage == StoreAccess(st, GrantedAccess(GetItem(st, RefreshKey).value, net))
              && (IsLogged(st) ==> IsLogged(r.storage))
    // a request failure reaches the hook as the client's error
    ensures Send(st, JsonRequest("GET", GetDataUrl, DataParams(pageIndex, pageSize, raw), None), net).result.Failure? ==>
              r.result == Failure(Failed(Send(st, JsonRequest("GET", GetDataUrl, DataParams(pageIndex, pageSize, raw), None), net).result.error))
    // a first request that fails without a refresh is rejected with its own error, or the missing-token error
    ensures |r.sent| == 1 && Fetch(r.sent[0], net).Failure? ==>
              var e := Fetch(r.sent[0], net).error;
              r.result == Failure(Failed(if PassesThrough(e) then Axios(e) else Plain("Refresh Token not found")))
    // a refused refresh is rejected with the refresh call's error, or the schema error
    ensures |r.sent| == 2 ==>
              r.result == Failure(Failed(if Fetch(r.sent[1], net).Failure? then Axios(Fetch(r.sent[1], net).error) else SchemaRejected))
  {
    var request := JsonRequest("GET", GetDataUrl, DataParams(pageIndex, pageSize, raw), None);
    var exchange := Send(st, request, net);
    match exchange.result
    case Failure(e) => Run(exchange.storage, Failure(Failed(e)), exchange.sent)
    case Success(resp) =>
      match ZodGetData.GetDataSuccess(resp.data, isEmail)
      case None => Run(exchange.storage, Failure(Failed(SchemaRejected)), exchange.sent)
      case Some(page) => Run(exchange.storage, Success(page), exchange.sent)
  }

  /** The react-query cache key of a data query. */
  function QueryKey(pageIndex: int, pageSize: int, raw: bool): (r: seq<Json>)
    ensures r == [Str("get-data"), Num(pageIndex), Num(pageSize), Bool(raw)]
  {
    [Str("get-data"), Num(pageIndex), Num(pageSize), Bool(raw)]
  }

  /** Different page positions, sizes or modes never share a cache entry. */
  lemma QueryKeyInjective(i1: int, s1: int, r1: bool, i2: int, s2: int, r2: bool)
    ensures QueryKey(i1, s1, r1) == QueryKey(i2, s2, r2) ==> i1 == i2 && s1 == s2 && r1 == r2
  {
    if QueryKey(i1, s1, r1) == QueryKey(i2, s2, r2) {
      assert QueryKey(i1, s1, r1)[1] == QueryKey(i2, s2, r2)[1];
      assert QueryKey(i1, s1, r1)[2] == QueryKey(i2, s2, r2)[2];
      assert QueryKey(i1, s1, r1)[3] == QueryKey(i2, s2, r2)[3];
    }
  }
}
