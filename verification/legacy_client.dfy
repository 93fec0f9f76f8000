/** The older single-stage TMDB client: its URL builder adds only the default language, its
    interceptor maps library failures straight to TMDB errors, and its verb wrappers return
    the response body. */
module LegacyClient {
  import opened Wrappers
  import opened Strings
  import opened Js
  import opened Query
  import opened Errors
  import opened AxiosClient
  import TmdbClient

  /** A legacy client: the configured default language, the serializer and the library. */
  datatype Client = Client(language: string, enc: string -> string, transport: HttpRequest -> Outcome)

  /** `{ language: getDefaultLanguage() }`. */
  function DefaultParams(language: string): Params {
    [("language", Str(language))]
  }

  function QueryOf(c: Client, params: Params): Entries {
    SearchEntries(Spread(DefaultParams(c.language), params))
  }

  /** `buildUrl(endpoint, params)` of the legacy client: the endpoint as given, a `?`, and
      the rendered query of the caller's parameters over the default language. */
  function BuildUrl(c: Client, endpoint: string, params: Params): (url: string)
    ensures |url| > |endpoint| && url[..|endpoint|] == endpoint && url[|endpoint|] == '?'
    ensures url[|endpoint| + 1..] == Render(QueryOf(c, params), c.enc)
  {
    endpoint + "?" + Render(QueryOf(c, params), c.enc)
  }

  /** For an endpoint without `?`, the legacy URL determines the endpoint and the query. */
  lemma UrlDeterminesRequest(c: Client, e1: string, p1: Params, e2: string, p2: Params)
    requires GoodEncoder(c.enc)
    requires '?' !in e1 && '?' !in e2
    requires BuildUrl(c, e1, p1) == BuildUrl(c, e2, p2)
    ensures e1 == e2 && QueryOf(c, p1) == QueryOf(c, p2)
  {
    WithQueryInjective(e1, QueryOf(c, p1), e2, QueryOf(c, p2), c.enc);
  }

  /** Only `language` has a default here: `api_key` appears only when the caller passes it,
      and caller values override the default language. */
  lemma QueryEntries(c: Client, params: Params, k: string)
    requires AtMostOnce(params, k)
    ensures Find(QueryOf(c, params), k) ==
      if k in KeysOf(params) then EntryFor(Find(params, k))
      else if k == "language" then Some(c.language)
      else None
  {
    DefaultFind(c.language, k);
    SpreadEntriesFind(DefaultParams(c.language), params, k);
  }

  /** The default holds `language` once. */
  lemma DefaultFind(language: string, k: string)
    ensures AtMostOnce(DefaultParams(language), k)
    ensures EntryFor(Find(DefaultParams(language), k)) == if k == "language" then Some(language) else None
  {
    assert EntryFor(Some(Str(language))) == Some(language);
  }

  /** Distinct caller keys give a query with distinct keys. */
  lemma QueryDistinct(c: Client, params: Params)
    requires DistinctKeys(params)
    ensures DistinctKeys(QueryOf(c, params))
  {
    var d := DefaultParams(c.language);
    SpreadDistinct(d, params);
    SearchEntriesKeys(Spread(d, params));
  }

  /** The legacy interceptor: fixed errors for 401, 404, 429 and 500, the body's
      `status_message` for any other status, and status-0 errors without a response. */
  function HandleError(f: Failure): (e: Error)
    ensures e.ApiError? || e.RateLimitError?
    ensures f.Rejected? && f.response.status == 401 ==> e == NewApiError(401, "Unauthorized: Invalid API key")
    ensures f.Rejected? && f.response.status == 404 ==> e == NewApiError(404, "Resource not found")
    ensures f.Rejected? && f.response.status == 429 ==>
      e == NewRateLimitError(Some("Rate limit exceeded. Please try again later."))
    ensures f.Rejected? && f.response.status == 500 ==> e == NewApiError(500, "Internal server error")
    ensures f.Rejected? && f.response.status !in {401, 404, 429, 500} ==>
      e == NewApiError(f.response.status, BodyMessage(f.response.data))
    ensures f.NoResponse? ==> e == NewApiError(0, TmdbClient.TmdbNetworkMessage)
    ensures f.SetupFailed? ==> e == NewApiError(0, SetupPrefix + f.message)
  {
    match f
    case Rejected(r) =>
      if r.status == 401 then NewApiError(r.status, TmdbClient.UnauthorizedMessage)
      else if r.status == 404 then NewApiError(r.status, TmdbClient.NotFoundResourceMessage)
      else if r.status == 429 then NewRateLimitError(Some(TmdbClient.RateLimitMessage))
      else if r.status == 500 then NewApiError(r.status, TmdbClient.ServerErrorMessage)
      else NewApiError(r.status, BodyMessage(r.data))
    case NoResponse => NewApiError(0, TmdbClient.TmdbNetworkMessage)
    case SetupFailed(m) => NewApiError(0, SetupPrefix + m)
  }

  /** `data?.status_message || 'An error occurred'`. */
  function BodyMessage(data: Value): (m: string)
    ensures Truthy(GetOpt(data, "status_message")) ==> m == ToStr(GetOpt(data, "status_message"))
    ensures !Truthy(GetOpt(data, "status_message")) ==> m == FallbackMessage
  {
    var sm := GetOpt(data, "status_message");
    if Truthy(sm) then ToStr(sm) else FallbackMessage
  }

  /** The two clients translate failures alike except in two places: the two-stage client
      falls back to `statusText` before the default message, and it turns a setup failure
      whose message mentions a network error into the network error. */
  lemma PipelinesAgree(f: Failure)
    requires f.Rejected? ==> f.response.status != 0
    requires f.Rejected? && f.response.status !in {401, 404, 429, 500} ==>
      f.response.statusText == "" && ToStr(GetOpt(f.response.data, "status_message")) != ""
    requires f.SetupFailed? ==> !Contains(f.message, "Network error")
    ensures TmdbClient.Translate(f) == HandleError(f)
  {
    match f
    case Rejected(r) =>
    case NoResponse => TmdbClient.NoResponseIsNetworkError();
    case SetupFailed(m) => TmdbClient.SetupFailureTranslation(m);
  }

  /** Where they differ: a non-empty `statusText` wins over the default in the two-stage
      client only. */
  lemma StatusTextDiffers(status: int, statusText: string)
    requires status !in {0, 401, 404, 429, 500} && statusText != "" && statusText != FallbackMessage
    ensures var r := HttpResponse(Obj(map[]), status, statusText, map[]);
      TmdbClient.Translate(Rejected(r)) != HandleError(Rejected(r))
  {
    var r := HttpResponse(Obj(map[]), status, statusText, map[]);
    assert GetOpt(r.data, "status_message") == Undefined;
  }

  /** What a verb wrapper delivers for the request it sends: the response body, or the
      interceptor's translation of the failure. */
  predicate Delivers(c: Client, req: HttpRequest, r: Result<Value, Error>) {
    var out := c.transport(req);
    && (out.Answered? ==> r == Ok(out.response.data))
    && (out.Failed? ==> r == Err(HandleError(out.failure)))
  }

  /** The verb wrappers: each resolves to the response body or throws the translated error,
      which is always an `ApiError` or a `RateLimitError`. */
  function Send(c: Client, req: HttpRequest): (r: Result<Value, Error>)
    ensures Delivers(c, req, r)
    ensures r.Err? ==> r.error.ApiError? || r.error.RateLimitError?
  {
    match c.transport(req)
    case Answered(resp) => Ok(resp.data)
    case Failed(f) => Err(HandleError(f))
  }

  /** `get(url, params)`: the params go to the library as they are, not into the URL; no
      body and no headers of its own. */
  function Get(c: Client, url: string, params: Option<Params>): (r: Result<Value, Error>)
    ensures Delivers(c, HttpRequest(url, GET, None, params, Undefined, None), r)
  {
    Send(c, GetRequest(url, params, None))
  }

  /** `post(url, data)`: the data as the body, no params. */
  function Post(c: Client, url: string, data: Value): (r: Result<Value, Error>)
    ensures Delivers(c, HttpRequest(url, POST, None, None, data, None), r)
  {
    Send(c, PostRequest(url, data, None))
  }

  /** `put(url, data)`: the data as the body, no params. */
  function Put(c: Client, url: string, data: Value): (r: Result<Value, Error>)
    ensures Delivers(c, HttpRequest(url, PUT, None, None, data, None), r)
  {
    Send(c, PutRequest(url, data, None))
  }

  /** `delete(url)`: neither body nor params. */
  function Delete(c: Client, url: string): (r: Result<Value, Error>)
    ensures Delivers(c, HttpRequest(url, DELETE, None, None, Undefined, None), r)
  {
    Send(c, DeleteRequest(url, None))
  }
}
