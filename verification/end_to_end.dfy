/**
 * Where the two sides meet: the query string the client's parameters become
 * (axios renders each parameter with `toString`), as the server's
 * `GetData` parses it, and the bearer header the client writes, as the
 * server's `Refresh` reads it.
 */
module EndToEnd {
  import opened Wrappers
  import opened Json
  import opened Decimal
  import opened Credentials
  import Params
  import Controllers
  import SessionClient
  import Hooks
  import Pagination

  /** The text of one query parameter; `null` is dropped. */
  function Render(v: Json): (r: Option<string>)
    ensures v.Null? ==> r.None?
    ensures v.Num? ==> r == Some(Show(v.n))
    ensures v.Bool? ==> r == Some(if v.b then "true" else "false")
    ensures v.Str? ==> r == Some(v.s)
  {
    match v
    case Num(n) => Some(Show(n))
    case Bool(b) => Some(if b then "true" else "false")
    case Str(s) => Some(s)
    case _ => None
  }

  /** The query string of a request's parameters, as the server's `url.Values`. */
  function QueryOf(params: map<string, Json>): (r: Params.Values)
    ensures forall k :: k in r <==> k in params && Render(params[k]).Some?
    ensures forall k :: k in r ==> r[k] == [Render(params[k]).value]
  {
    map k | k in params && Render(params[k]).Some? :: [Render(params[k]).value]
  }

  /**
   * The page request the client builds is read back by the server as the
   * same offset, limit and mode, clamped by the server's minimums (0 and 1),
   * as long as the numbers fit the server's 64-bit integers.
   */
  lemma DataQueryRoundTrip(pageIndex: int, pageSize: int, raw: bool)
    requires Int64Min <= pageIndex * pageSize <= Int64Max
    requires Int64Min <= pageSize <= Int64Max
    ensures Controllers.ParseDataQuery(QueryOf(Hooks.DataParams(pageIndex, pageSize, raw))) ==
              Controllers.DataQuery(if pageIndex * pageSize >= 0 then pageIndex * pageSize else 0,
                                    if pageSize >= 1 then pageSize else 1,
                                    raw)
  {
    var q := QueryOf(Hooks.DataParams(pageIndex, pageSize, raw));
    Params.ReadsBackRendered(q, "offset", 0, pageIndex * pageSize);
    Params.ReadsBackRendered(q, "limit", 1, pageSize);
    assert Params.QueryGet(q, "raw") == if raw then "true" else "false";
  }

  /** The table's first request asks the server for rows 0..24, as stored. */
  lemma InitialPageQuery()
    ensures var s := Pagination.Initial;
            Controllers.ParseDataQuery(QueryOf(Hooks.DataParams(s.pageIndex, s.pageSize, s.raw))) ==
              Controllers.DataQuery(0, 25, true)
  {
    DataQueryRoundTrip(0, 25, true);
  }

  /** The refresh call's header passes the server's bearer check, which hands back the stored refresh token. */
  lemma RefreshHeaderAccepted(token: string)
    ensures Controllers.RefreshAuthorization(SessionClient.RefreshRequest(token).headers.value["Authorization"]) == Success(token)
  {
  }

  /** The header the request interceptor attaches carries the stored access token through the same check. */
  lemma AccessHeaderAccepted(st: Storage, config: SessionClient.Config)
    requires AccessKey in st && config.headers.Some?
    ensures var sent := SessionClient.AttachAuth(st, config);
            "Authorization" in sent.headers.value
            && Controllers.RefreshAuthorization(sent.headers.value["Authorization"]) == Success(st[AccessKey])
  {
  }
}
