/**
 * The HTTP client of frontend/src/axios/index.ts: the request interceptor that
 * attaches the stored access token, and the response interceptor that, on a
 * failed request, refreshes the access token once and replays the request.
 * The network is a parameter: a `Transport` maps a request to the server's
 * response, or to nothing when no response arrives.
 */
module SessionClient {
  import opened Wrappers
  import opened Json
  import opened Text
  import opened Credentials
  import ZodRefresh

  const Api: string := "http://localhost:8081"
  const LoginUrl: string := Api + "/login"
  const RegisterUrl: string := Api + "/register"
  const RefreshUrl: string := Api + "/refresh"
  const GetDataUrl: string := Api + "/get-data"
  const SwaggerUrl: string := Api + "/swagger/swagger.json"
  const ProfileUrl: string := Api + "/profile"

  /** The headers every request of the client carries. */
  const DefaultHeaders: map<string, string> := map["Request-Origin" := Api, "Content-Type" := "application/json"]

  /** A request configuration; `retry` marks a request that is already a replay. */
  datatype Config = Config(
    verb: string,
    url: Option<string>,
    headers: Option<map<string, string>>,
    params: map<string, Json>,
    body: Option<Json>,
    retry: bool)

  /** A server response. */
  datatype Response = Response(status: int, data: Json)

  /** An `AxiosError`: the request it belongs to and the response, if one arrived. */
  datatype HttpError = HttpError(config: Option<Config>, response: Option<Response>)

  /** What a request made through the client can be rejected with. */
  datatype ClientError =
    | Axios(error: HttpError)     // a failed HTTP exchange
    | SchemaRejected              // a body that failed its schema (a `ZodError`)
    | Plain(message: string)      // a plain `Error`

  /** The network, left abstract. */
  type Transport = Config -> Option<Response>

  /** One exchange over the network; a status outside 2xx rejects, as axios does by default. */
  function Fetch(config: Config, net: Transport): (r: Result<Response, HttpError>)
    ensures r.Success? <==> net(config).Some? && 200 <= net(config).value.status < 300
    ensures r.Success? ==> r.value == net(config).value
    ensures r.Failure? ==> r.error == HttpError(Some(config), net(config))
  {
    match net(config)
    case Some(resp) =>
      if 200 <= resp.status < 300 then Success(resp) else Failure(HttpError(Some(config), Some(resp)))
    case None => Failure(HttpError(Some(config), None))
  }

  /** The request interceptor: with an access token stored and headers present, set `Authorization`. */
  function AttachAuth(st: Storage, config: Config): (r: Config)
    ensures r.(headers := config.headers) == config
    ensures r.headers.Some? <==> config.headers.Some?
    ensures GetItem(st, AccessKey).Some? && config.headers.Some? ==>
              r.headers.value == config.headers.value["Authorization" := "Bearer " + GetItem(st, AccessKey).value]
    ensures GetItem(st, AccessKey).None? ==> r == config
  {
    match (GetItem(st, AccessKey), config.headers)
    case (Some(token), Some(headers)) => config.(headers := Some(headers["Authorization" := "Bearer " + token]))
    case _ => config
  }

  /** Re-attaching under a store that holds an access token overrides the header attached before. */
  lemma AttachAuthOverrides(before: Storage, after: Storage, config: Config)
    requires GetItem(after, AccessKey).Some?
    ensures AttachAuth(after, AttachAuth(before, config)) == AttachAuth(after, config)
  {
    if config.headers.Some? && GetItem(before, AccessKey).Some? {
      var h := config.headers.value;
      var v := "Bearer " + GetItem(after, AccessKey).value;
      assert h["Authorization" := "Bearer " + GetItem(before, AccessKey).value]["Authorization" := v] == h["Authorization" := v];
    }
  }

  /** Requests to these addresses never trigger a refresh (`url.includes(path)` for any of them). */
  predicate SkipRefresh(url: Option<string>) {
    url.Some? && (Contains(url.value, LoginUrl) || Contains(url.value, RefreshUrl) || Contains(url.value, RegisterUrl))
  }

  /** The refresh call: an empty JSON body, the refresh token as bearer credential, no interceptors. */
  function RefreshRequest(token: string): (r: Config)
    ensures r.url == Some(RefreshUrl) && r.headers.Some? && !r.retry
    ensures "Authorization" in r.headers.value && r.headers.value["Authorization"] == "Bearer " + token
  {
    Config("POST", Some(RefreshUrl), Some(DefaultHeaders["Authorization" := "Bearer " + token]),
           map[], Some(Obj(map[])), false)
  }

  /** What the response interceptor decides: reject, or replay a request. */
  datatype Decision = Reject(failure: ClientError) | Replay(config: Config)

  /** The interceptor's effect: the new store, its decision and the refresh requests it sent. */
  datatype Step = Step(storage: Storage, decision: Decision, refreshes: seq<Config>)

  /** The checks that let an error through untouched, in the interceptor's order. */
  predicate PassesThrough(err: HttpError) {
    || err.config.None?
    || err.config.value.retry
    || SkipRefresh(err.config.value.url)
    || (err.response.Some? && err.response.value.status >= 500)
  }

  /** The refresh call for `token` gets a 2xx reply whose body the refresh schema accepts. */
  predicate RefreshGranted(token: string, net: Transport) {
    && Fetch(RefreshRequest(token), net).Success?
    && ZodRefresh.RefreshSuccess(net(RefreshRequest(token)).value.data).Some?
  }

  /** The access token a granted refresh hands out. */
  function GrantedAccess(token: string, net: Transport): string
    requires RefreshGranted(token, net)
  {
    ZodRefresh.RefreshSuccess(net(RefreshRequest(token)).value.data).value.access
  }

  /** The response interceptor's error handler. */
  function Intercept(st: Storage, err: HttpError, net: Transport): (r: Step)
    ensures |r.refreshes| <= 1
    // rejected unchanged: no refresh, store untouched
    ensures PassesThrough(err) ==> r == Step(st, Reject(Axios(err)), [])
    // no refresh token: a plain error, no refresh, store untouched
    ensures !PassesThrough(err) && GetItem(st, RefreshKey).None? ==>
              r == Step(st, Reject(Plain("Refresh Token not found")), [])
    // otherwise exactly one refresh call, carrying the stored refresh token
    ensures !PassesThrough(err) && GetItem(st, RefreshKey).Some? ==>
              r.refreshes == [RefreshRequest(GetItem(st, RefreshKey).value)]
    // a refresh without a 2xx reply: logged out, rejected with the refresh call's error
    ensures !PassesThrough(err) && GetItem(st, RefreshKey).Some? && Fetch(r.refreshes[0], net).Failure? ==>
              r == Step(ClearTokens(st), Reject(Axios(HttpError(Some(r.refreshes[0]), net(r.refreshes[0])))), r.refreshes)
    // a 2xx refresh reply the schema refuses: logged out, rejected with the schema error
    ensures !PassesThrough(err) && GetItem(st, RefreshKey).Some? && Fetch(r.refreshes[0], net).Success?
            && ZodRefresh.RefreshSuccess(net(r.refreshes[0]).value.data).None? ==>
              r == Step(ClearTokens(st), Reject(SchemaRejected), r.refreshes)
    // a granted refresh: the new access token is stored and the original request replayed as a retry
    ensures !PassesThrough(err) && GetItem(st, RefreshKey).Some? && RefreshGranted(GetItem(st, RefreshKey).value, net) ==>
              r == Step(StoreAccess(st, GrantedAccess(GetItem(st, RefreshKey).value, net)),
                        Replay(err.config.value.(retry := true)), r.refreshes)
    // and a replay happens only then
    ensures r.decision.Replay? ==>
              && !PassesThrough(err) && |r.refreshes| == 1
              && GetItem(st, RefreshKey).Some? && RefreshGranted(GetItem(st, RefreshKey).value, net)
    // a failed refresh clears both tokens
    ensures r.decision.Reject? && |r.refreshes| == 1 ==> r.storage == ClearTokens(st)
  {
    if PassesThrough(err) then Step(st, Reject(Axios(err)), [])
    else
      var config := err.config.value;
      match GetItem(st, RefreshKey)
      case None => Step(st, Reject(Plain("Refresh Token not found")), [])
      case Some(token) =>
        var request := RefreshRequest(token);
        match Fetch(request, net)
        case Failure(e) => Step(ClearTokens(st), Reject(Axios(e)), [request])
        case Success(resp) =>
          match ZodRefresh.RefreshSuccess(resp.data)
          case None => Step(ClearTokens(st), Reject(SchemaRejected), [request])
          case Some(tokens) => Step(StoreAccess(st, tokens.access), Replay(config.(retry := true)), [request])
  }

  /** The first exchange of `config` fails in a way the interceptor answers with a refresh call. */
  predicate Refreshes(st: Storage, config: Config, net: Transport) {
    && Fetch(AttachAuth(st, config), net).Failure?
    && !PassesThrough(Fetch(AttachAuth(st, config), net).error)
    && GetItem(st, RefreshKey).Some?
  }

  /** The result a retried request ends with: its own reply, or its own error. */
  function Settled(config: Config, net: Transport): Result<Response, ClientError> {
    match Fetch(config, net)
    case Success(resp) => Success(resp)
    case Failure(e) => Failure(Axios(e))
  }

  /** The outcome of a request through the client: the store, the result and every request sent, in order. */
  datatype Exchange = Exchange(storage: Storage, result: Result<Response, ClientError>, sent: seq<Config>)

  /**
   * A request through the client (`Axios(config)`): the request interceptor,
   * the exchange and, on failure, the response interceptor, whose replay
   * goes through the client again.
   */
  function Send(st: Storage, config: Config, net: Transport): (r: Exchange)
    decreases if config.retry then 0 else 1
    ensures 1 <= |r.sent| <= 3
    ensures r.sent[0] == AttachAuth(st, config)
    // a retried request, or one that succeeds first time, is sent once and leaves the store alone
    ensures config.retry ==> |r.sent| == 1 && r.storage == st
    ensures Fetch(AttachAuth(st, config), net).Success? ==> r == Exchange(st, Success(Fetch(AttachAuth(st, config), net).value), [AttachAuth(st, config)])
    ensures SkipRefresh(config.url) ==> |r.sent| == 1 && r.storage == st
    // a failure the interceptor does not answer with a refresh: sent once, store untouched,
    // rejected with the request's own error, or with the missing-token error
    ensures Fetch(AttachAuth(st, config), net).Failure? && !Refreshes(st, config, net) ==>
              && |r.sent| == 1 && r.storage == st
              && var e := Fetch(AttachAuth(st, config), net).error;
              r.result == Failure(if PassesThrough(e) then Axios(e) else Plain("Refresh Token not found"))
    // a refresh happens exactly when the interceptor answers with one, as the second request sent
    ensures |r.sent| >= 2 <==> Refreshes(st, config, net)
    ensures |r.sent| >= 2 ==> GetItem(st, RefreshKey).Some? && r.sent[1] == RefreshRequest(GetItem(st, RefreshKey).value)
    // a refresh that is not granted logs out, and nothing is replayed
    ensures Refreshes(st, config, net) && !RefreshGranted(GetItem(st, RefreshKey).value, net) ==>
              && |r.sent| == 2 && r.storage == ClearTokens(st)
              && r.result == Failure(if Fetch(r.sent[1], net).Failure? then Axios(Fetch(r.sent[1], net).error) else SchemaRejected)
    // a granted refresh stores the new access token and replays the request once, under that token
    ensures Refreshes(st, config, net) && RefreshGranted(GetItem(st, RefreshKey).value, net) ==>
              && |r.sent| == 3
              && r.storage == StoreAccess(st, GrantedAccess(GetItem(st, RefreshKey).value, net))
    ensures |r.sent| == 3 ==> r.sent[2] == AttachAuth(r.storage, config.(retry := true))
    ensures |r.sent| == 3 ==> GetItem(r.storage, RefreshKey) == GetItem(st, RefreshKey) && GetItem(r.storage, AccessKey).Some?
    // the replay's own reply or error is the result
    ensures |r.sent| == 3 ==> r.result == Settled(r.sent[2], net)
    // a refresh that does not lead to a replay clears both tokens
    ensures |r.sent| == 2 ==> r.storage == ClearTokens(st) && r.result.Failure?
    // a success is the reply to the last request sent, the original or its replay, and conversely
    ensures r.result.Success? ==> |r.sent| != 2 && net(r.sent[|r.sent| - 1]) == Some(r.result.value)
    ensures |r.sent| != 2 && Fetch(r.sent[|r.sent| - 1], net).Success? ==> r.result == Success(net(r.sent[|r.sent| - 1]).value)
    // nothing but the two token keys is ever written
    ensures forall k :: k != AccessKey && k != RefreshKey ==> GetItem(r.storage, k) == GetItem(st, k)
  {
    var request := AttachAuth(st, config);
    match Fetch(request, net)
    case Success(resp) => Exchange(st, Success(resp), [request])
    case Failure(e) =>
      var step := Intercept(st, e, net);
      match step.decision
      case Reject(failure) => Exchange(step.storage, Failure(failure), [request] + step.refreshes)
      case Replay(again) =>
        var replay := Send(step.storage, again, net);
        AttachAuthOverrides(st, step.storage, config.(retry := true));
        Exchange(replay.storage, replay.result, [request] + step.refreshes + replay.sent)
  }

  /**
   * An expired access token: the first request fails with no response or a
   * status below 500, the refresh is granted, and the request is replayed
   * once under the new token. Whatever the replay's fate, both tokens stay
   * stored: a failure of the replay itself is not the refresh failing.
   */
  lemma ExpiredAccessRefreshedOnce(st: Storage, config: Config, net: Transport, token: string)
    requires !config.retry && !SkipRefresh(config.url)
    requires GetItem(st, RefreshKey) == Some(token)
    requires Fetch(AttachAuth(st, config), net).Failure?
    requires net(AttachAuth(st, config)).None? || net(AttachAuth(st, config)).value.status < 500
    requires RefreshGranted(token, net)
    ensures var r := Send(st, config, net);
            var renewed := StoreAccess(st, GrantedAccess(token, net));
            && r.sent == [AttachAuth(st, config), RefreshRequest(token), AttachAuth(renewed, config.(retry := true))]
            && r.storage == renewed
            && IsLogged(r.storage)
            && r.result == Settled(AttachAuth(renewed, config.(retry := true)), net)
  {
    StoreAccessKeepsLogin(st, GrantedAccess(token, net));
    assert Refreshes(st, config, net);
  }

  /** A refresh that gets no 2xx reply logs the user out and rejects with the refresh call's error. */
  lemma RefreshFailureLogsOut(st: Storage, config: Config, net: Transport, token: string)
    requires !config.retry && !SkipRefresh(config.url)
    requires GetItem(st, RefreshKey) == Some(token)
    requires Fetch(AttachAuth(st, config), net).Failure?
    requires net(AttachAuth(st, config)).None? || net(AttachAuth(st, config)).value.status < 500
    requires Fetch(RefreshRequest(token), net).Failure?
    ensures var r := Send(st, config, net);
            && r.sent == [AttachAuth(st, config), RefreshRequest(token)]
            && r.storage == ClearTokens(st)
            && !IsLogged(r.storage)
            && r.result == Failure(Axios(HttpError(Some(RefreshRequest(token)), net(RefreshRequest(token)))))
  {
    LoginLogout(st, "", "");
    assert Refreshes(st, config, net);
  }

  /** The skip list holds absolute addresses: a relative path to the login endpoint is not skipped. */
  lemma RelativeLoginPathNotSkipped()
    ensures !SkipRefresh(Some("/login"))
  {
    ContainsAt("/login", LoginUrl);
    ContainsAt("/login", RefreshUrl);
    ContainsAt("/login", RegisterUrl);
  }
}
