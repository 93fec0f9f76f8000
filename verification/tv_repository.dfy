/** The TMDB TV-show repository: the request each operation makes. Unlike the movie
    repository it returns TMDB's responses as they arrive, without entity conversion. */
module TvShowRepository {
  import opened Wrappers
  import opened Js
  import opened Query
  import opened Errors
  import opened Repository
  import TmdbClient

  /** `searchTvShows`: the parameter object built from a `SearchFilters` record. */
  const SearchTable: ParamTable := [
    ("query", Copy("query")),
    ("page", OrDefault("page", Num(1))),
    ("include_adult", OrDefault("includeAdult", Bool(false))),
    ("language", OrDefault("language", Str(English))),
    ("first_air_date_year", Copy("year"))]

  /** `discoverTvShows`: the parameter object built from a `DiscoverTvFilters` record. */
  const DiscoverTable: ParamTable := [
    ("page", OrDefault("page", Num(1))),
    ("language", OrDefault("language", Str(English))),
    ("sort_by", Copy("sortBy")),
    ("air_date.gte", Copy("airDateGte")),
    ("air_date.lte", Copy("airDateLte")),
    ("first_air_date.gte", Copy("firstAirDateGte")),
    ("first_air_date.lte", Copy("firstAirDateLte")),
    ("first_air_date_year", Copy("firstAirDateYear")),
    ("timezone", Copy("timezone")),
    ("vote_average.gte", Copy("voteAverageGte")),
    ("vote_count.gte", Copy("voteCountGte")),
    ("with_genres", Copy("withGenres")),
    ("with_networks", Copy("withNetworks")),
    ("without_genres", Copy("withoutGenres")),
    ("with_runtime.gte", Copy("withRuntimeGte")),
    ("with_runtime.lte", Copy("withRuntimeLte")),
    ("include_null_first_air_dates", Copy("includeNullFirstAirDates")),
    ("with_original_language", Copy("withOriginalLanguage")),
    ("without_keywords", Copy("withoutKeywords")),
    ("screened_theatrically", Copy("screened_theatrically")),
    ("with_companies", Copy("withCompanies")),
    ("without_companies", Copy("withoutCompanies")),
    ("with_keywords", Copy("withKeywords"))]

  /** Where the named search parameters sit; each name occurs once. */
  lemma SearchRows()
    ensures OnlyAt(SearchTable, "query", 0) && OnlyAt(SearchTable, "page", 1)
    ensures OnlyAt(SearchTable, "include_adult", 2) && OnlyAt(SearchTable, "language", 3)
    ensures OnlyAt(SearchTable, "first_air_date_year", 4)
    ensures forall i :: 0 <= i < |SearchTable| ==> !SearchTable[i].1.PipeJoined?
  {
  }

  /** The request of `searchTvShows(filters)`: the page defaults to 1, `include_adult` to
      `false` and the language to `en-US` when falsy; the year travels as
      `first_air_date_year`. */
  function SearchTvShowsCall(f: Params): (call: Call)
    ensures call.path == "/search/tv"
    ensures Find(call.params, "query") == Some(Lookup(f, "query"))
    ensures Find(call.params, "page") == Some(Or(Lookup(f, "page"), Num(1)))
    ensures Find(call.params, "include_adult") == Some(Or(Lookup(f, "includeAdult"), Bool(false)))
    ensures Find(call.params, "language") == Some(Or(Lookup(f, "language"), Str(English)))
    ensures Find(call.params, "first_air_date_year") == Some(Lookup(f, "year"))
  {
    SearchRows();
    NoJoinNeverFails(f, SearchTable);
    RuleAt(f, SearchTable, "query", 0);
    RuleAt(f, SearchTable, "page", 1);
    RuleAt(f, SearchTable, "include_adult", 2);
    RuleAt(f, SearchTable, "language", 3);
    RuleAt(f, SearchTable, "first_air_date_year", 4);
    Call("/search/tv", BuildParams(f, SearchTable).value)
  }

  lemma SearchLanguageRow()
    ensures OnlyAt(SearchTable, "language", 3) && SearchTable[3].1 == OrDefault("language", Str(English))
    ensures forall i :: 0 <= i < |SearchTable| ==> !SearchTable[i].1.PipeJoined?
  {
  }

  /** A TV search always names a language: the filters' own when truthy, else `en-US`,
      never the client's configured default. */
  lemma SearchTvShowsLanguage(c: TmdbClient.Client, f: Params)
    ensures Find(TmdbClient.QueryOf(c, SearchTvShowsCall(f).params), "language")
            == Some(ParamText(Or(Lookup(f, "language"), Str(English))))
    ensures !Truthy(Lookup(f, "language")) ==>
            Find(TmdbClient.QueryOf(c, SearchTvShowsCall(f).params), "language") == Some(English)
  {
    SearchLanguageRow();
    NoJoinNeverFails(f, SearchTable);
    QueryAt(c, f, SearchTable, "language", 3);
    DefaultSent(f, "language", Str(English));
    assert ParamText(Str(English)) == English;
  }

  /** `searchTvShows(filters)`: the response as TMDB sends it. */
  function SearchTvShows(c: TmdbClient.Client, f: Params): (r: Result<Value, Error>)
    ensures Raw(c, SearchTvShowsCall(f), r)
    ensures r.Err? ==> r.error.ApiError? || r.error.RateLimitError?
  {
    Fetch(c, SearchTvShowsCall(f))
  }

  lemma DiscoverPageRow()
    ensures OnlyAt(DiscoverTable, "page", 0) && DiscoverTable[0].1 == OrDefault("page", Num(1))
  {
  }

  lemma DiscoverLanguageRow()
    ensures OnlyAt(DiscoverTable, "language", 1) && DiscoverTable[1].1 == OrDefault("language", Str(English))
  {
  }

  lemma DiscoverSortByRow()
    ensures OnlyAt(DiscoverTable, "sort_by", 2) && DiscoverTable[2].1 == Copy("sortBy")
  {
  }

  lemma DiscoverRuntimeGteRow()
    ensures OnlyAt(DiscoverTable, "with_runtime.gte", 14) && DiscoverTable[14].1 == Copy("withRuntimeGte")
  {
  }

  /** No TV discover row joins a list. */
  lemma DiscoverNoJoins()
    ensures forall i :: 0 <= i < |DiscoverTable| ==> !DiscoverTable[i].1.PipeJoined?
  {
  }

  /** The request of `discoverTvShows(filters)`: every discover field under its TMDB name.
      No field is joined, so building it never fails. */
  function DiscoverTvShowsCall(f: Params): (call: Call)
    ensures call.path == "/discover/tv"
    ensures BuildParams(f, DiscoverTable) == Ok(call.params)
  {
    DiscoverNoJoins();
    NoJoinNeverFails(f, DiscoverTable);
    Call("/discover/tv", BuildParams(f, DiscoverTable).value)
  }

  /** The discover page defaults to 1 and the language to `en-US` when falsy. */
  lemma DiscoverDefaults(f: Params)
    ensures Find(DiscoverTvShowsCall(f).params, "page") == Some(Or(Lookup(f, "page"), Num(1)))
    ensures Find(DiscoverTvShowsCall(f).params, "language") == Some(Or(Lookup(f, "language"), Str(English)))
  {
    assert BuildParams(f, DiscoverTable) == Ok(DiscoverTvShowsCall(f).params);
    DiscoverPageRow();
    DiscoverLanguageRow();
    DefaultAt(f, DiscoverTable, "page", 0, "page", Num(1));
    DefaultAt(f, DiscoverTable, "language", 1, "language", Str(English));
  }

  /** The sort order is copied as given. */
  lemma DiscoverSortOrder(f: Params)
    ensures Find(DiscoverTvShowsCall(f).params, "sort_by") == Some(Lookup(f, "sortBy"))
  {
    assert BuildParams(f, DiscoverTable) == Ok(DiscoverTvShowsCall(f).params);
    DiscoverSortByRow();
    CopyAt(f, DiscoverTable, "sort_by", 2, "sortBy");
  }

  /** No TV discover row is named `with_runtime_gte`. */
  lemma DiscoverNoUnderscoreRuntime()
    ensures forall j :: 0 <= j < |DiscoverTable| ==> DiscoverTable[j].0 != "with_runtime_gte"
  {
  }

  /** The minimum runtime travels under TMDB's own name `with_runtime.gte`, the opposite of
      the movie discover request. */
  lemma DiscoverRuntimeName(c: TmdbClient.Client, f: Params)
    ensures Find(TmdbClient.QueryOf(c, DiscoverTvShowsCall(f).params), "with_runtime_gte").None?
    ensures Find(TmdbClient.QueryOf(c, DiscoverTvShowsCall(f).params), "with_runtime.gte")
            == EntryFor(Some(Lookup(f, "withRuntimeGte")))
  {
    DiscoverNoUnderscoreRuntime();
    DiscoverNoJoins();
    NoJoinNeverFails(f, DiscoverTable);
    QueryAbsent(c, f, DiscoverTable, "with_runtime_gte");
    DiscoverRuntimeGteRow();
    QueryAt(c, f, DiscoverTable, "with_runtime.gte", 14);
  }

  /** The fields of `DiscoverTvFilters` that no discover row reads. */
  predicate Unread(k: string) {
    k == "withWatchProviders" || k == "watchRegion" || k == "withWatchMonetizationTypes"
    || k == "withStatus" || k == "withType"
  }

  lemma DiscoverUnreadRows(k: string)
    requires Unread(k)
    ensures forall i :: 0 <= i < |DiscoverTable| ==> DiscoverTable[i].1.field != k
  {
  }

  /** Watch providers, watch region, monetization types, status and type are declared TV
      discover filters, but the request is the same whatever they hold. */
  lemma DiscoverIgnoresUnread(f: Params, k: string, v: Value)
    requires Unread(k)
    ensures DiscoverTvShowsCall(Assign(f, k, v)) == DiscoverTvShowsCall(f)
  {
    DiscoverUnreadRows(k);
    BuildParamsIgnores(f, DiscoverTable, k, v);
  }

  /** `discoverTvShows(filters)`: the response as TMDB sends it. */
  function DiscoverTvShows(c: TmdbClient.Client, f: Params): (r: Result<Value, Error>)
    ensures Raw(c, DiscoverTvShowsCall(f), r)
    ensures r.Err? ==> r.error.ApiError? || r.error.RateLimitError?
  {
    Fetch(c, DiscoverTvShowsCall(f))
  }

  /** `{ ...filters, page }`: the page argument replaces any page among the filters. */
  function PageFilters(page: Value, filters: Option<Params>): (f: Params)
    ensures Lookup(f, "page") == page
  {
    AssignFind(filters.GetOr([]), "page", page, "page");
    Assign(filters.GetOr([]), "page", page)
  }

  /** Every other filter passes through the merge unchanged. */
  lemma PageFiltersKeep(page: Value, filters: Option<Params>, k: string)
    requires k != "page"
    ensures Lookup(PageFilters(page, filters), k) == Lookup(filters.GetOr([]), k)
  {
    AssignFind(filters.GetOr([]), "page", page, k);
  }

  /** `findPaginated` and `findByPage` ask for the page argument (1 when falsy) whatever page
      the filters hold, the opposite of the movie repository's `{ page, ...filters }`. */
  lemma PagedRequestPage(page: Value, filters: Option<Params>)
    ensures Find(DiscoverTvShowsCall(PageFilters(page, filters)).params, "page") == Some(Or(page, Num(1)))
  {
    DiscoverDefaults(PageFilters(page, filters));
  }

  /** The object `findPaginated` returns. */
  datatype PageSummary = PageSummary(results: Value, page: Value, totalPages: Value, totalResults: Value)

  /** The summary as written: it reads `totalPages` and `totalResults`, names that a raw TMDB
      response, spelled in snake case, does not have. */
  function SummaryAsWritten(response: Value): (r: Result<PageSummary, Error>)
    ensures r.Err? <==> Nullish(response)
    ensures r.Ok? ==> r.value.results == GetOpt(response, "results") && r.value.page == GetOpt(response, "page")
  {
    if Nullish(response) then Err(TypeError("Cannot read properties of null or undefined"))
    else Ok(PageSummary(GetOpt(response, "results"), GetOpt(response, "page"),
                        GetOpt(response, "totalPages"), GetOpt(response, "totalResults")))
  }

  /** A response object that names its totals only in TMDB's snake case. */
  predicate SnakeCaseTotals(response: Value) {
    response.Obj? && "totalPages" !in response.fields && "totalResults" !in response.fields
  }

  /** As written, the totals of every TMDB response come back `undefined`. */
  lemma AsWrittenLosesTotals(response: Value)
    requires SnakeCaseTotals(response)
    ensures SummaryAsWritten(response).Ok?
    ensures SummaryAsWritten(response).value.totalPages == Undefined
    ensures SummaryAsWritten(response).value.totalResults == Undefined
  {
  }

  /** The summary as evidently intended: the totals read from `total_pages` and
      `total_results`. */
  function Summary(response: Value): (r: Result<PageSummary, Error>)
    ensures r.Err? <==> Nullish(response)
    ensures r.Ok? ==> r.value.results == GetOpt(response, "results") && r.value.page == GetOpt(response, "page")
  {
    if Nullish(response) then Err(TypeError("Cannot read properties of null or undefined"))
    else Ok(PageSummary(GetOpt(response, "results"), GetOpt(response, "page"),
                        GetOpt(response, "total_pages"), GetOpt(response, "total_results")))
  }

  /** The corrected summary carries the same page and totals as the paged envelope every
      other search of the client builds from the same response. */
  lemma SummaryMatchesEnvelope<T>(response: Value, f: Value -> Result<T, Error>)
    requires Envelope(response, f).Ok?
    ensures Summary(response).Ok?
    ensures Summary(response).value.page == Envelope(response, f).value.page
    ensures Summary(response).value.totalPages == Envelope(response, f).value.totalPages
    ensures Summary(response).value.totalResults == Envelope(response, f).value.totalResults
  {
  }

  /** A second-page response with three pages: as written the summary reports no total,
      corrected it reports 3. */
  lemma SummaryCounterexample()
    ensures var response := Obj(map["page" := Num(2), "results" := Arr([]), "total_pages" := Num(3), "total_results" := Num(60)]);
      && SummaryAsWritten(response) == Ok(PageSummary(Arr([]), Num(2), Undefined, Undefined))
      && Summary(response) == Ok(PageSummary(Arr([]), Num(2), Num(3), Num(60)))
  {
  }

  /** `findPaginated(page, limit, filters)` as written; `limit` is ignored, so it is not a
      parameter here. */
  function FindPaginatedAsWritten(c: TmdbClient.Client, page: Value, filters: Option<Params>): (r: Result<PageSummary, Error>)
    ensures DiscoverTvShows(c, PageFilters(page, filters)).Err? ==> r == Err(DiscoverTvShows(c, PageFilters(page, filters)).error)
    ensures DiscoverTvShows(c, PageFilters(page, filters)).Ok? ==> r == SummaryAsWritten(DiscoverTvShows(c, PageFilters(page, filters)).value)
    ensures DiscoverTvShows(c, PageFilters(page, filters)).Ok? && SnakeCaseTotals(DiscoverTvShows(c, PageFilters(page, filters)).value) ==>
      r.Ok? && r.value.totalPages == Undefined && r.value.totalResults == Undefined
  {
    var response :- DiscoverTvShows(c, PageFilters(page, filters));
    SummaryAsWritten(response)
  }

  /** `findPaginated(page, limit, filters)` with the totals read from the response. */
  function FindPaginated(c: TmdbClient.Client, page: Value, filters: Option<Params>): (r: Result<PageSummary, Error>)
    ensures DiscoverTvShows(c, PageFilters(page, filters)).Err? ==> r == Err(DiscoverTvShows(c, PageFilters(page, filters)).error)
    ensures r.Ok? ==> r == Summary(DiscoverTvShows(c, PageFilters(page, filters)).value)
    ensures DiscoverTvShows(c, PageFilters(page, filters)).Ok? ==> r == Summary(DiscoverTvShows(c, PageFilters(page, filters)).value)
  {
    var response :- DiscoverTvShows(c, PageFilters(page, filters));
    Summary(response)
  }

  /** `findByPage(page, filters)`: the raw discover response for that page. */
  function FindByPage(c: TmdbClient.Client, page: Value, filters: Option<Params>): (r: Result<Value, Error>)
    ensures Raw(c, DiscoverTvShowsCall(PageFilters(page, filters)), r)
  {
    DiscoverTvShows(c, PageFilters(page, filters))
  }

  /** `findAll()`: the results of the first page of popular shows, in the client's default
      language. A response without a body makes reading its results a `TypeError`. */
  function FindAll(c: TmdbClient.Client): (r: Result<Value, Error>)
    ensures Fetch(c, Call("/tv/popular", [])).Err? ==> r == Err(Fetch(c, Call("/tv/popular", [])).error)
    ensures r.Ok? ==> r.value == GetOpt(Fetch(c, Call("/tv/popular", [])).value, "results")
    ensures Fetch(c, Call("/tv/popular", [])).Ok? ==> r == ResultsOf(Fetch(c, Call("/tv/popular", [])).value)
  {
    var response :- Fetch(c, Call("/tv/popular", []));
    ResultsOf(response)
  }

  /** `search(query, filters)`: the results of the search with `filters || { query }`. */
  function Search(c: TmdbClient.Client, query: Value, filters: Option<Params>): (r: Result<Value, Error>)
    ensures SearchTvShows(c, SearchFiltersOf(query, filters)).Err? ==> r == Err(SearchTvShows(c, SearchFiltersOf(query, filters)).error)
    ensures r.Ok? ==> r.value == GetOpt(SearchTvShows(c, SearchFiltersOf(query, filters)).value, "results")
    ensures SearchTvShows(c, SearchFiltersOf(query, filters)).Ok? ==> r == ResultsOf(SearchTvShows(c, SearchFiltersOf(query, filters)).value)
  {
    var response :- SearchTvShows(c, SearchFiltersOf(query, filters));
    ResultsOf(response)
  }

  /** The TV lists `getPopularTvShows`, `getTopRatedTvShows`, `getAiringTodayTvShows` and
      `getOnTheAirTvShows`. */
  datatype TvList = Popular | TopRated | AiringToday | OnTheAir

  function ListPath(l: TvList): (p: string)
    ensures "/tv/" <= p
  {
    match l
    case Popular => "/tv/popular"
    case TopRated => "/tv/top_rated"
    case AiringToday => "/tv/airing_today"
    case OnTheAir => "/tv/on_the_air"
  }

  /** The request of a TV list: its own endpoint, the page (1 when omitted) and a fixed
      `en-US` language. */
  function ListCall(l: TvList, page: Value): (call: Call)
    ensures forall l' :: l' != l ==> call.path != ListPath(l')
    ensures Find(call.params, "page") == Some(PageArg(page))
    ensures Find(call.params, "language") == Some(Str(English))
  {
    Call(ListPath(l), EnglishPage(page))
  }

  function GetList(c: TmdbClient.Client, l: TvList, page: Value): (r: Result<Value, Error>)
    ensures Raw(c, ListCall(l, page), r)
  {
    Fetch(c, ListCall(l, page))
  }

  /** `/tv/${id}` followed by an optional sub-resource. */
  function TvPath(id: int, sub: string): (p: string)
    ensures "/tv/" <= p
  {
    "/tv/" + IdText(id) + sub
  }

  /** Different ids address different shows. */
  lemma TvPathInjective(a: int, b: int, sub: string)
    requires TvPath(a, sub) == TvPath(b, sub)
    ensures a == b
  {
    IdPathInjective("/tv/", a, b, sub);
  }

  /** `findById(id)` and `getTvShowDetails(id)`: the raw details of one show. */
  function GetTvShowDetails(c: TmdbClient.Client, id: int): (r: Result<Value, Error>)
    ensures Raw(c, Call(TvPath(id, ""), []), r)
  {
    Fetch(c, Call(TvPath(id, ""), []))
  }

  /** `getTvShowCredits(id)`. */
  function GetTvShowCredits(c: TmdbClient.Client, id: int): (r: Result<Value, Error>)
    ensures Raw(c, Call(TvPath(id, "/credits"), []), r)
  {
    Fetch(c, Call(TvPath(id, "/credits"), []))
  }

  /** `getSimilarTvShows(id, page)` (`recommended` false) and `getRecommendedTvShows(id, page)`:
      the page and a fixed `en-US` language. */
  function RelatedCall(id: int, recommended: bool, page: Value): (call: Call)
    ensures call.path == TvPath(id, if recommended then "/recommendations" else "/similar")
    ensures Find(call.params, "page") == Some(PageArg(page))
    ensures Find(call.params, "language") == Some(Str(English))
  {
    Call(TvPath(id, if recommended then "/recommendations" else "/similar"), EnglishPage(page))
  }

  function GetRelated(c: TmdbClient.Client, id: int, recommended: bool, page: Value): (r: Result<Value, Error>)
    ensures Raw(c, RelatedCall(id, recommended, page), r)
  {
    Fetch(c, RelatedCall(id, recommended, page))
  }
}
