/** The TMDB search repository: multi-search and trending. Its results go through the
    result factories of the domain, which are parameters here. Unlike the other repositories
    it catches nothing, so the client's errors reach the caller as they are. */
module SearchRepository {
  import opened Wrappers
  import opened Strings
  import opened Js
  import opened Query
  import opened Errors
  import opened Filters
  import opened Repository
  import TmdbClient

  /** `multiSearch`: the parameter object built from a `SearchFilters` record. */
  const MultiSearchTable: ParamTable := [
    ("query", Copy("query")),
    ("page", OrDefault("page", Num(1))),
    ("include_adult", OrDefault("includeAdult", Bool(false))),
    ("language", Copy("language"))]

  lemma MultiSearchRows()
    ensures OnlyAt(MultiSearchTable, "query", 0) && OnlyAt(MultiSearchTable, "page", 1)
    ensures OnlyAt(MultiSearchTable, "include_adult", 2) && OnlyAt(MultiSearchTable, "language", 3)
    ensures forall i :: 0 <= i < |MultiSearchTable| ==> !MultiSearchTable[i].1.PipeJoined?
  {
  }

  /** The request of `multiSearch(filters)`: the page defaults to 1 and `include_adult` to
      `false` when falsy; query and language are copied as given. */
  function MultiSearchCall(f: Params): (call: Call)
    ensures call.path == "/search/multi"
    ensures KeysOf(call.params) == ["query", "page", "include_adult", "language"]
    ensures Find(call.params, "query") == Some(Lookup(f, "query"))
    ensures Find(call.params, "page") == Some(Or(Lookup(f, "page"), Num(1)))
    ensures Find(call.params, "include_adult") == Some(Or(Lookup(f, "includeAdult"), Bool(false)))
    ensures Find(call.params, "language") == Some(Lookup(f, "language"))
  {
    MultiSearchRows();
    NoJoinNeverFails(f, MultiSearchTable);
    BuildParamsKeys(f, MultiSearchTable);
    RuleAt(f, MultiSearchTable, "query", 0);
    RuleAt(f, MultiSearchTable, "page", 1);
    RuleAt(f, MultiSearchTable, "include_adult", 2);
    RuleAt(f, MultiSearchTable, "language", 3);
    Call("/search/multi", BuildParams(f, MultiSearchTable).value)
  }

  lemma MultiSearchLanguageRow()
    ensures OnlyAt(MultiSearchTable, "language", 3) && MultiSearchTable[3].1 == Copy("language")
    ensures forall i :: 0 <= i < |MultiSearchTable| ==> !MultiSearchTable[i].1.PipeJoined?
  {
  }

  /** The language of a multi-search is the filters' own: a missing one is sent as an
      explicit `undefined`, which replaces the client's default, so no language is sent. */
  lemma MultiSearchLanguage(c: TmdbClient.Client, f: Params)
    ensures Find(TmdbClient.QueryOf(c, MultiSearchCall(f).params), "language") == EntryFor(Some(Lookup(f, "language")))
    ensures Nullish(Lookup(f, "language")) ==>
            Find(TmdbClient.QueryOf(c, MultiSearchCall(f).params), "language").None?
  {
    MultiSearchLanguageRow();
    NoJoinNeverFails(f, MultiSearchTable);
    QueryAt(c, f, MultiSearchTable, "language", 3);
  }

  /** `multiSearch(filters)`: the paged envelope, each result through `MultiResultFactory`. */
  function MultiSearch<T>(c: TmdbClient.Client, f: Params, create: Value -> Result<T, Error>): (r: Result<SearchResult<T>, Error>)
    ensures Fetch(c, MultiSearchCall(f)).Err? ==> r == Err(Fetch(c, MultiSearchCall(f)).error)
    ensures Fetch(c, MultiSearchCall(f)).Ok? ==> r == Envelope(Fetch(c, MultiSearchCall(f)).value, create)
  {
    Paged(c, MultiSearchCall(f), create)
  }

  /** `/trending/${mediaType}/${timeWindow}`. */
  function TrendingPath(m: MediaType, w: TimeWindow): (p: string)
    ensures "/trending/" <= p
  {
    "/trending/" + MediaTypeCode(m) + "/" + TimeWindowCode(w)
  }

  /** No media-type code holds a slash. */
  lemma MediaTypeCodeNoSlash(m: MediaType)
    ensures '/' !in MediaTypeCode(m)
  {
  }

  lemma TrendingTail(m: MediaType, w: TimeWindow)
    ensures TrendingPath(m, w) == "/trending/" + (MediaTypeCode(m) + "/" + TimeWindowCode(w))
  {
  }

  /** A trending path names its media-type and time-window codes. */
  lemma TrendingCodes(m: MediaType, w: TimeWindow, m': MediaType, w': TimeWindow)
    requires TrendingPath(m, w) == TrendingPath(m', w')
    ensures MediaTypeCode(m) == MediaTypeCode(m') && TimeWindowCode(w) == TimeWindowCode(w')
  {
    TrendingTail(m, w);
    TrendingTail(m', w');
    SameEnding("/trending/", MediaTypeCode(m) + "/" + TimeWindowCode(w), "/trending/", MediaTypeCode(m') + "/" + TimeWindowCode(w'));
    MediaTypeCodeNoSlash(m);
    MediaTypeCodeNoSlash(m');
    SplitAtSeparator(MediaTypeCode(m), TimeWindowCode(w), MediaTypeCode(m'), TimeWindowCode(w'), '/');
  }

  /** Each media type and time window has its own trending endpoint. */
  lemma TrendingPathInjective(m: MediaType, w: TimeWindow, m': MediaType, w': TimeWindow)
    requires TrendingPath(m, w) == TrendingPath(m', w')
    ensures m == m' && w == w'
  {
    TrendingCodes(m, w, m', w');
    MediaTypeRoundTrip(m);
    MediaTypeRoundTrip(m');
    TimeWindowRoundTrip(w);
    TimeWindowRoundTrip(w');
  }

  /** The request of `getTrending(mediaType, timeWindow, page)`: only the page, 1 when
      omitted. */
  function TrendingCall(m: MediaType, w: TimeWindow, page: Value): (call: Call)
    ensures KeysOf(call.params) == ["page"]
    ensures Find(call.params, "page") == Some(PageArg(page))
  {
    Call(TrendingPath(m, w), [("page", PageArg(page))])
  }

  /** Trending results come in the client's default language; an omitted page asks for
      page 1. */
  lemma TrendingQuery(c: TmdbClient.Client, m: MediaType, w: TimeWindow)
    ensures Find(TmdbClient.QueryOf(c, TrendingCall(m, w, Undefined).params), "page") == Some("1")
    ensures Find(TmdbClient.QueryOf(c, TrendingCall(m, w, Undefined).params), "language") == Some(c.language)
  {
    PageOnlyQuery(c, Undefined);
    assert ParamText(Num(1)) == "1";
  }

  /** `getTrending(mediaType, timeWindow, page)`: the paged envelope, each result through
      `TrendingResultFactory`. */
  function GetTrending<T>(c: TmdbClient.Client, m: MediaType, w: TimeWindow, page: Value, create: Value -> Result<T, Error>): (r: Result<SearchResult<T>, Error>)
    ensures Fetch(c, TrendingCall(m, w, page)).Err? ==> r == Err(Fetch(c, TrendingCall(m, w, page)).error)
    ensures Fetch(c, TrendingCall(m, w, page)).Ok? ==> r == Envelope(Fetch(c, TrendingCall(m, w, page)).value, create)
  {
    Paged(c, TrendingCall(m, w, page), create)
  }
}
