/** The TMDB client: it puts the API key and the configured language into every query,
    sends the request through the generic client, returns the response body, and turns
    every failure into the application's error taxonomy. */
module TmdbClient {
  import opened Wrappers
  import opened Strings
  import opened Js
  import opened Query
  import opened Errors
  import opened AxiosClient

  /** A client: the configured API key and default language, the form-urlencoded
      serializer, and the HTTP library. */
  datatype Client = Client(
    apiKey: string,
    language: string,
    enc: string -> string,
    transport: HttpRequest -> Outcome)

  /** `{ api_key: config.apiKey, language: getDefaultLanguage() }`. */
  function DefaultParams(apiKey: string, language: string): (p: Params)
    ensures DistinctKeys(p) && KeysOf(p) == ["api_key", "language"]
  {
    [("api_key", Str(apiKey)), ("language", Str(language))]
  }

  /** The query of `buildUrl`: caller parameters spread over the defaults, nullish values
      dropped. */
  function QueryOf(c: Client, params: Params): Entries {
    SearchEntries(Spread(DefaultParams(c.apiKey, c.language), params))
  }

  /** `buildUrl(endpoint, params)`: the endpoint as given, a `?`, and the rendered query of
      the caller's parameters over the defaults. */
  function BuildUrl(c: Client, endpoint: string, params: Params): (url: string)
    ensures |url| > |endpoint| && url[..|endpoint|] == endpoint && url[|endpoint|] == '?'
    ensures url[|endpoint| + 1..] == Render(QueryOf(c, params), c.enc)
  {
    endpoint + "?" + Render(QueryOf(c, params), c.enc)
  }

  /** The query holds one entry per key. A caller key decides its own entry (a nullish value
      means no entry, even for `api_key` or `language`); otherwise `api_key` and `language`
      come from the configuration, and no other key appears. */
  lemma QueryEntries(c: Client, params: Params, k: string)
    requires AtMostOnce(params, k)
    ensures Find(QueryOf(c, params), k) ==
      if k in KeysOf(params) then EntryFor(Find(params, k))
      else if k == "api_key" then Some(c.apiKey)
      else if k == "language" then Some(c.language)
      else None
  {
    var d := DefaultParams(c.apiKey, c.language);
    DefaultFind(c.apiKey, c.language, k);
    SpreadEntriesFind(d, params, k);
  }

  /** The defaults hold each of their two keys once. */
  lemma DefaultFind(apiKey: string, language: string, k: string)
    ensures AtMostOnce(DefaultParams(apiKey, language), k)
    ensures Find(DefaultParams(apiKey, language), k) ==
      if k == "api_key" then Some(Str(apiKey))
      else if k == "language" then Some(Str(language))
      else None
    ensures EntryFor(Find(DefaultParams(apiKey, language), k)) ==
      if k == "api_key" then Some(apiKey)
      else if k == "language" then Some(language)
      else None
  {
    assert EntryFor(Some(Str(apiKey))) == Some(apiKey);
    assert EntryFor(Some(Str(language))) == Some(language);
  }

  /** Distinct caller keys give a query with distinct keys. */
  lemma QueryDistinct(c: Client, params: Params)
    requires DistinctKeys(params)
    ensures DistinctKeys(QueryOf(c, params))
  {
    var d := DefaultParams(c.apiKey, c.language);
    SpreadDistinct(d, params);
    SearchEntriesKeys(Spread(d, params));
  }

  /** The URL is the endpoint, `?`, and the query; for an endpoint without `?` it
      determines both. */
  lemma UrlDeterminesRequest(c: Client, e1: string, p1: Params, e2: string, p2: Params)
    requires GoodEncoder(c.enc)
    requires '?' !in e1 && '?' !in e2
    requires BuildUrl(c, e1, p1) == BuildUrl(c, e2, p2)
    ensures e1 == e2 && QueryOf(c, p1) == QueryOf(c, p2)
  {
    WithQueryInjective(e1, QueryOf(c, p1), e2, QueryOf(c, p2), c.enc);
  }

  /** `false` and `0` are kept and printed; arrays become one comma-joined entry. */
  lemma FalsyValuesKept()
    ensures EntryFor(Some(Bool(false))) == Some("false")
    ensures EntryFor(Some(Num(0))) == Some("0")
    ensures EntryFor(Some(Arr([Num(12), Num(7)]))) == Some("12,7")
    ensures EntryFor(Some(Undefined)) == None && EntryFor(Some(Null)) == None
  {
    assert IntToString(0) == "0";
    assert IntToString(12) == "12" by {
      assert NatToString(12) == NatToString(1) + [DigitChar(2)];
    }
    assert IntToString(7) == "7";
    assert ElementText(Num(12)) == "12" && ElementText(Num(7)) == "7";
    assert ElementTexts([Num(12), Num(7)]) == ["12", "7"];
    assert ["12", "7"][1..] == ["7"];
    assert Join(["12", "7"], ",") == "12,7";
  }

  const UnauthorizedMessage := "Unauthorized: Invalid API key"
  const NotFoundResourceMessage := "Resource not found"
  const RateLimitMessage := "Rate limit exceeded. Please try again later."
  const ServerErrorMessage := "Internal server error"
  const TmdbNetworkMessage := "Network error: Unable to connect to TMDB API"
  const UnknownMessage := "An unknown error occurred"

  /** `error.status`: only an `HttpError` has that property. */
  function StatusOf(e: Error): int {
    if e.HttpError? then e.status else 0
  }

  /** `handleTmdbError`. A non-zero status picks a fixed error for 401, 404, 429 and 500
      and keeps any other status with the incoming message; without a status the message
      decides between the TMDB network error and a status-0 `ApiError`. */
  function HandleTmdbError(e: Error): (r: Error)
    ensures StatusOf(e) == 401 ==> r == NewApiError(401, UnauthorizedMessage)
    ensures StatusOf(e) == 404 ==> r == NewApiError(404, NotFoundResourceMessage)
    ensures StatusOf(e) == 429 ==> r == NewRateLimitError(Some(RateLimitMessage))
    ensures StatusOf(e) == 500 ==> r == NewApiError(500, ServerErrorMessage)
    ensures StatusOf(e) !in {0, 401, 404, 429, 500} ==>
      r == NewApiError(StatusOf(e), if e.message != "" then e.message else FallbackMessage)
    ensures StatusOf(e) == 0 && Contains(e.message, "Network error") ==> r == NewApiError(0, TmdbNetworkMessage)
    ensures StatusOf(e) == 0 && !Contains(e.message, "Network error") ==>
      r == NewApiError(0, if e.message != "" then e.message else UnknownMessage)
    ensures r.ApiError? || r.RateLimitError?
  {
    var status := StatusOf(e);
    if status != 0 then
      if status == 401 then NewApiError(status, UnauthorizedMessage)
      else if status == 404 then NewApiError(status, NotFoundResourceMessage)
      else if status == 429 then NewRateLimitError(Some(RateLimitMessage))
      else if status == 500 then NewApiError(status, ServerErrorMessage)
      else NewApiError(status, if e.message != "" then e.message else FallbackMessage)
    else if Includes(e.message, "Network error") then NewApiError(0, TmdbNetworkMessage)
    else NewApiError(0, if e.message != "" then e.message else UnknownMessage)
  }

  /** The full translation of a library failure: generic stage, then TMDB stage. */
  function Translate(f: Failure): Error {
    HandleTmdbError(HandleError(f))
  }

  /** A request that got no response ends as the TMDB network error. */
  lemma NoResponseIsNetworkError()
    ensures Translate(NoResponse) == NewApiError(0, TmdbNetworkMessage)
  {
    var m := NetworkMessage;
    assert m[..13] == "Network error";
    assert OccursAt(m, "Network error", 0);
  }

  /** A setup failure keeps its prefixed message, unless the library's own message already
      mentions a network error. */
  lemma SetupFailureTranslation(m: string)
    ensures Contains(m, "Network error") ==> Translate(SetupFailed(m)) == NewApiError(0, TmdbNetworkMessage)
    ensures !Contains(m, "Network error") ==> Translate(SetupFailed(m)) == NewApiError(0, SetupPrefix + m)
  {
    ContainsAfterPrefix(SetupPrefix, m, "Network error");
  }

  /** An error response keeps its status; the fixed statuses get their fixed errors. */
  lemma RejectedTranslation(resp: HttpResponse)
    requires resp.status != 0
    ensures resp.status == 401 ==> Translate(Rejected(resp)) == NewApiError(401, UnauthorizedMessage)
    ensures resp.status == 429 ==> Translate(Rejected(resp)).RateLimitError?
    ensures resp.status !in {401, 404, 429, 500} ==>
      Translate(Rejected(resp)).ApiError? && Translate(Rejected(resp)).statusCode == resp.status
  {
  }

  /** The request `get` sends: the built URL, no params object, JSON headers. */
  function GetRequestFor(c: Client, endpoint: string, params: Params): HttpRequest {
    GetRequest(BuildUrl(c, endpoint, params), None, Some(JsonHeaders))
  }

  /** `get<T>(endpoint, params)`: the response body on success, the translated error
      otherwise. Parameters travel only in the URL. */
  function Get(c: Client, endpoint: string, params: Params): (r: Result<Value, Error>)
    ensures var out := c.transport(GetRequestFor(c, endpoint, params));
      && (out.Answered? ==> r == Ok(out.response.data))
      && (out.Failed? ==> r == Err(Translate(out.failure)))
    ensures GetRequestFor(c, endpoint, params).params.None?
  {
    match Request(GetRequestFor(c, endpoint, params), c.transport)
    case Ok(resp) => Ok(resp.data)
    case Err(e) => Err(HandleTmdbError(e))
  }

  /** `post<T>(endpoint, data, params)`: like `get`, with the body passed through. */
  function Post(c: Client, endpoint: string, data: Value, params: Params): (r: Result<Value, Error>)
    ensures var req := PostRequest(BuildUrl(c, endpoint, params), data, Some(JsonHeaders));
      var out := c.transport(req);
      && req.data == data
      && (out.Answered? ==> r == Ok(out.response.data))
      && (out.Failed? ==> r == Err(Translate(out.failure)))
  {
    match Request(PostRequest(BuildUrl(c, endpoint, params), data, Some(JsonHeaders)), c.transport)
    case Ok(resp) => Ok(resp.data)
    case Err(e) => Err(HandleTmdbError(e))
  }

  /** Every failure of `get` is an `ApiError` or a `RateLimitError`: the raw `HttpError`
      never escapes the TMDB client. */
  lemma GetErrorsAreTranslated(c: Client, endpoint: string, params: Params)
    requires Get(c, endpoint, params).Err?
    ensures Get(c, endpoint, params).error.ApiError? || Get(c, endpoint, params).error.RateLimitError?
  {
  }
}
