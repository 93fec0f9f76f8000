/** The TMDB movie repository: the request each operation makes and the mapping of list
    responses through `Movie.create`. */
module MovieRepository {
  import opened Wrappers
  import opened Js
  import opened Query
  import opened Errors
  import opened Entities
  import opened Repository
  import TmdbClient

  /** `searchMovies`: the parameter object built from a `SearchFilters` record. */
  const SearchTable: ParamTable := [
    ("query", Copy("query")),
    ("page", OrDefault("page", Num(1))),
    ("include_adult", OrDefault("includeAdult", Bool(false))),
    ("region", Copy("region")),
    ("year", Copy("year")),
    ("primary_release_year", Copy("primaryReleaseYear")),
    ("language", Copy("language"))]

  /** `discoverMovies`: the parameter object built from a `DiscoverMovieFilters` record. */
  const DiscoverTable: ParamTable := [
    ("page", OrDefault("page", Num(1))),
    ("language", Copy("language")),
    ("region", Copy("region")),
    ("sort_by", Copy("sortBy")),
    ("include_adult", OrDefault("includeAdult", Bool(false))),
    ("include_video", OrDefault("includeVideo", Bool(false))),
    ("primary_release_year", Copy("primaryReleaseYear")),
    ("primary_release_date.gte", Copy("primaryReleaseDateGte")),
    ("primary_release_date.lte", Copy("primaryReleaseDateLte")),
    ("release_date.gte", Copy("releaseDateGte")),
    ("release_date.lte", Copy("releaseDateLte")),
    ("with_release_type", PipeJoined("withReleaseType")),
    ("year", Copy("year")),
    ("vote_count.gte", Copy("voteCountGte")),
    ("vote_count.lte", Copy("voteCountLte")),
    ("vote_average.gte", Copy("voteAverageGte")),
    ("vote_average.lte", Copy("voteAverageLte")),
    ("with_cast", Copy("withCast")),
    ("with_crew", Copy("withCrew")),
    ("with_people", Copy("withPeople")),
    ("with_companies", Copy("withCompanies")),
    ("with_genres", Copy("withGenres")),
    ("without_genres", Copy("withoutGenres")),
    ("with_keywords", Copy("withKeywords")),
    ("without_keywords", Copy("withoutKeywords")),
    ("with_runtime_gte", Copy("withRuntimeGte")),
    ("with_runtime_lte", Copy("withRuntimeLte")),
    ("with_original_language", Copy("withOriginalLanguage")),
    ("watch_region", Copy("watchRegion")),
    ("with_watch_providers", Copy("withWatchProviders")),
    ("with_watch_monetization_types", PipeJoined("withWatchMonetizationTypes"))]

  /** Where the named search parameters sit; each name occurs once. */
  lemma SearchRows()
    ensures OnlyAt(SearchTable, "query", 0) && OnlyAt(SearchTable, "page", 1)
    ensures OnlyAt(SearchTable, "include_adult", 2) && OnlyAt(SearchTable, "primary_release_year", 5)
    ensures OnlyAt(SearchTable, "language", 6)
    ensures forall i :: 0 <= i < |SearchTable| ==> !SearchTable[i].1.PipeJoined?
  {
  }

  /** The request of `searchMovies(filters)`: the search fields renamed to TMDB's names, the
      page defaulting to 1 and `include_adult` to `false` when falsy. */
  function SearchMoviesCall(f: Params): (call: Call)
    ensures call.path == "/search/movie"
    ensures Find(call.params, "query") == Some(Lookup(f, "query"))
    ensures Find(call.params, "page") == Some(Or(Lookup(f, "page"), Num(1)))
    ensures Find(call.params, "include_adult") == Some(Or(Lookup(f, "includeAdult"), Bool(false)))
    ensures Find(call.params, "primary_release_year") == Some(Lookup(f, "primaryReleaseYear"))
    ensures Find(call.params, "language") == Some(Lookup(f, "language"))
  {
    SearchRows();
    NoJoinNeverFails(f, SearchTable);
    RuleAt(f, SearchTable, "query", 0);
    RuleAt(f, SearchTable, "page", 1);
    RuleAt(f, SearchTable, "include_adult", 2);
    RuleAt(f, SearchTable, "primary_release_year", 5);
    RuleAt(f, SearchTable, "language", 6);
    Call("/search/movie", BuildParams(f, SearchTable).value)
  }

  /** The URL of a movie search always carries a page and `include_adult`. */
  lemma SearchMoviesQueryDefaults(c: TmdbClient.Client, f: Params)
    ensures var q := TmdbClient.QueryOf(c, SearchMoviesCall(f).params);
      && Find(q, "page") == Some(ParamText(Or(Lookup(f, "page"), Num(1))))
      && Find(q, "include_adult") == Some(ParamText(Or(Lookup(f, "includeAdult"), Bool(false))))
  {
    SearchRows();
    NoJoinNeverFails(f, SearchTable);
    QueryAt(c, f, SearchTable, "page", 1);
    QueryAt(c, f, SearchTable, "include_adult", 2);
  }

  /** A movie search without a language sends none at all: the explicit `undefined`
      overrides the client's default language before empty values are dropped. */
  lemma SearchMoviesDropsLanguage(c: TmdbClient.Client, f: Params)
    requires Nullish(Lookup(f, "language"))
    ensures Find(TmdbClient.QueryOf(c, SearchMoviesCall(f).params), "language").None?
  {
    SearchRows();
    NoJoinNeverFails(f, SearchTable);
    QueryAt(c, f, SearchTable, "language", 6);
  }

  /** `searchMovies(filters)`. */
  function SearchMovies(c: TmdbClient.Client, f: Params): (r: Result<SearchResult<Movie>, Error>)
    ensures PagedFrom(Fetch(c, SearchMoviesCall(f)), CreateMovie, r)
  {
    Paged(c, SearchMoviesCall(f), CreateMovie)
  }

  lemma DiscoverPageRow()
    ensures OnlyAt(DiscoverTable, "page", 0) && DiscoverTable[0].1 == OrDefault("page", Num(1))
  {
  }

  lemma DiscoverSortByRow()
    ensures OnlyAt(DiscoverTable, "sort_by", 3) && DiscoverTable[3].1 == Copy("sortBy")
  {
  }

  lemma DiscoverIncludeVideoRow()
    ensures OnlyAt(DiscoverTable, "include_video", 5) && DiscoverTable[5].1 == OrDefault("includeVideo", Bool(false))
  {
  }

  lemma DiscoverReleaseTypeRow()
    ensures OnlyAt(DiscoverTable, "with_release_type", 11) && DiscoverTable[11].1 == PipeJoined("withReleaseType")
  {
  }

  lemma DiscoverRuntimeGteRow()
    ensures OnlyAt(DiscoverTable, "with_runtime_gte", 25) && DiscoverTable[25].1 == Copy("withRuntimeGte")
  {
  }

  /** Only the two list rows `join`. */
  lemma DiscoverJoinRow(i: int)
    requires 0 <= i < |DiscoverTable| && DiscoverTable[i].1.PipeJoined?
    ensures i == 11 || i == 30
  {
  }

  /** Building the discover parameters fails exactly when one of the two list rows does. */
  lemma DiscoverFailsAt(f: Params)
    requires BuildParams(f, DiscoverTable).Err?
    ensures Unjoinable(f, DiscoverTable[11].1.field) || Unjoinable(f, DiscoverTable[30].1.field)
  {
    BuildParamsFails(f, DiscoverTable);
    var i :| 0 <= i < |DiscoverTable| && DiscoverTable[i].1.PipeJoined? && Unjoinable(f, DiscoverTable[i].1.field);
    DiscoverJoinRow(i);
  }

  lemma DiscoverFailsOn(f: Params, i: int)
    requires i == 11 || i == 30
    requires Unjoinable(f, DiscoverTable[i].1.field)
    ensures BuildParams(f, DiscoverTable).Err?
  {
    assert DiscoverTable[i].1.PipeJoined?;
    BuildParamsFails(f, DiscoverTable);
  }

  lemma DiscoverListFields()
    ensures DiscoverTable[11].1.field == "withReleaseType"
    ensures DiscoverTable[30].1.field == "withWatchMonetizationTypes"
  {
  }

  lemma DiscoverFails(f: Params)
    ensures BuildParams(f, DiscoverTable).Err? <==>
      Unjoinable(f, "withReleaseType") || Unjoinable(f, "withWatchMonetizationTypes")
  {
    DiscoverListFields();
    if BuildParams(f, DiscoverTable).Err? {
      DiscoverFailsAt(f);
    } else if Unjoinable(f, "withReleaseType") {
      DiscoverFailsOn(f, 11);
    } else if Unjoinable(f, "withWatchMonetizationTypes") {
      DiscoverFailsOn(f, 30);
    }
  }

  /** The request of `discoverMovies(filters)`: every discover field under its TMDB name,
      release types and monetization types joined with `|`. Only a list field that is not an
      array makes it fail. */
  function DiscoverMoviesCall(f: Params): (r: Result<Call, Error>)
    ensures r.Err? <==> Unjoinable(f, "withReleaseType") || Unjoinable(f, "withWatchMonetizationTypes")
    ensures r.Ok? ==> r.value.path == "/discover/movie"
  {
    DiscoverFails(f);
    var b := BuildParams(f, DiscoverTable);
    if b.Err? then Err(b.error) else Ok(Call("/discover/movie", b.value))
  }

  /** The discover page defaults to 1 and `include_video` to `false` when falsy. */
  lemma DiscoverDefaults(f: Params)
    requires DiscoverMoviesCall(f).Ok?
    ensures Find(DiscoverMoviesCall(f).value.params, "page") == Some(Or(Lookup(f, "page"), Num(1)))
    ensures Find(DiscoverMoviesCall(f).value.params, "include_video") == Some(Or(Lookup(f, "includeVideo"), Bool(false)))
  {
    DiscoverPageRow();
    DiscoverIncludeVideoRow();
    DefaultAt(f, DiscoverTable, "page", 0, "page", Num(1));
    DefaultAt(f, DiscoverTable, "include_video", 5, "includeVideo", Bool(false));
  }

  /** Release types travel `|`-joined. */
  lemma DiscoverReleaseTypes(f: Params)
    requires DiscoverMoviesCall(f).Ok?
    ensures PipeJoin(Lookup(f, "withReleaseType")).Ok?
    ensures Find(DiscoverMoviesCall(f).value.params, "with_release_type") == Some(PipeJoin(Lookup(f, "withReleaseType")).value)
  {
    DiscoverReleaseTypeRow();
    JoinAt(f, DiscoverTable, "with_release_type", 11, "withReleaseType");
  }

  /** The sort order is copied as given. */
  lemma DiscoverSortOrder(f: Params)
    requires DiscoverMoviesCall(f).Ok?
    ensures Find(DiscoverMoviesCall(f).value.params, "sort_by") == Some(Lookup(f, "sortBy"))
  {
    DiscoverSortByRow();
    CopyAt(f, DiscoverTable, "sort_by", 3, "sortBy");
  }

  /** `withoutCompanies` is part of the discover filters but no parameter reads it: the
      request is the same whatever it holds. */
  lemma DiscoverIgnoresWithoutCompanies(f: Params, v: Value)
    ensures DiscoverMoviesCall(Assign(f, "withoutCompanies", v)) == DiscoverMoviesCall(f)
  {
    BuildParamsIgnores(f, DiscoverTable, "withoutCompanies", v);
  }

  /** No discover row is named `with_runtime.gte`. */
  lemma DiscoverNoDottedRuntime()
    ensures forall j :: 0 <= j < |DiscoverTable| ==> DiscoverTable[j].0 != "with_runtime.gte"
  {
  }

  /** The minimum runtime travels as `with_runtime_gte`, so the URL never holds TMDB's own
      `with_runtime.gte` name for movies. */
  lemma DiscoverRuntimeName(c: TmdbClient.Client, f: Params)
    requires DiscoverMoviesCall(f).Ok?
    ensures Find(TmdbClient.QueryOf(c, DiscoverMoviesCall(f).value.params), "with_runtime.gte").None?
    ensures Find(TmdbClient.QueryOf(c, DiscoverMoviesCall(f).value.params), "with_runtime_gte")
            == EntryFor(Some(Lookup(f, "withRuntimeGte")))
  {
    DiscoverNoDottedRuntime();
    QueryAbsent(c, f, DiscoverTable, "with_runtime.gte");
    DiscoverRuntimeGteRow();
    QueryAt(c, f, DiscoverTable, "with_runtime_gte", 25);
  }

  /** `discoverMovies(filters)`. */
  function DiscoverMovies(c: TmdbClient.Client, f: Params): (r: Result<SearchResult<Movie>, Error>)
    ensures DiscoverMoviesCall(f).Err? ==> r == Err(DiscoverMoviesCall(f).error)
    ensures DiscoverMoviesCall(f).Ok? ==> PagedFrom(Fetch(c, DiscoverMoviesCall(f).value), CreateMovie, r)
  {
    var call :- DiscoverMoviesCall(f);
    Paged(c, call, CreateMovie)
  }

  /** `{ page, ...filters }`: a page among the filters, even an explicit `undefined`, wins over
      the page argument. */
  function PaginatedFilters(page: Value, filters: Option<Params>): (f: Params)
    ensures filters.None? ==> Lookup(f, "page") == page
    ensures filters.Some? && DistinctKeys(filters.value) ==>
      Lookup(f, "page") == if "page" in KeysOf(filters.value) then Lookup(filters.value, "page") else page
  {
    if filters.Some? && DistinctKeys(filters.value) then
      SpreadFind([("page", page)], filters.value, "page");
      Spread([("page", page)], filters.value)
    else Spread([("page", page)], filters.GetOr([]))
  }

  /** `findPaginated(page, limit, filters)`: discover with the page merged in; `limit` is
      ignored, so it is not a parameter here. The page sent is the filters' page if they hold
      one, else the argument, and 1 when that is falsy. */
  lemma FindPaginatedPage(page: Value, filters: Option<Params>)
    requires filters.Some? ==> DistinctKeys(filters.value)
    requires DiscoverMoviesCall(PaginatedFilters(page, filters)).Ok?
    ensures var chosen := if filters.Some? && "page" in KeysOf(filters.value) then Lookup(filters.value, "page") else page;
      Find(DiscoverMoviesCall(PaginatedFilters(page, filters)).value.params, "page") == Some(Or(chosen, Num(1)))
  {
    DiscoverPageRow();
    DefaultAt(PaginatedFilters(page, filters), DiscoverTable, "page", 0, "page", Num(1));
  }

  function FindPaginated(c: TmdbClient.Client, page: Value, filters: Option<Params>): (r: Result<SearchResult<Movie>, Error>)
    ensures var call := DiscoverMoviesCall(PaginatedFilters(page, filters));
      && (call.Err? ==> r == Err(call.error))
      && (call.Ok? ==> PagedFrom(Fetch(c, call.value), CreateMovie, r))
  {
    DiscoverMovies(c, PaginatedFilters(page, filters))
  }

  /** Searching by query alone asks for the first page of that query. */
  lemma SearchByQueryAlone(query: Value)
    ensures Find(SearchMoviesCall(SearchFiltersOf(query, None)).params, "query") == Some(query)
    ensures Find(SearchMoviesCall(SearchFiltersOf(query, None)).params, "page") == Some(Num(1))
  {
  }

  /** `search(query, filters)`: the search with `filters || { query }`, results only. */
  function Search(c: TmdbClient.Client, query: Value, filters: Option<Params>): (r: Result<seq<Movie>, Error>)
    ensures ResultsFrom(Fetch(c, SearchMoviesCall(SearchFiltersOf(query, filters))), CreateMovie, r)
  {
    var r :- SearchMovies(c, SearchFiltersOf(query, filters));
    Ok(r.results)
  }

  /** `findAll()`: the first page of popular movies, results only. */
  function FindAll(c: TmdbClient.Client): (r: Result<seq<Movie>, Error>)
    ensures ResultsFrom(Fetch(c, Call("/movie/popular", [])), CreateMovie, r)
  {
    var r :- Paged(c, Call("/movie/popular", []), CreateMovie);
    Ok(r.results)
  }

  /** The movie lists `getPopularMovies`, `getTopRatedMovies`, `getUpcomingMovies` and
      `getNowPlayingMovies`. */
  datatype MovieList = Popular | TopRated | Upcoming | NowPlaying

  function ListPath(l: MovieList): (p: string)
    ensures "/movie/" <= p
  {
    match l
    case Popular => "/movie/popular"
    case TopRated => "/movie/top_rated"
    case Upcoming => "/movie/upcoming"
    case NowPlaying => "/movie/now_playing"
  }

  /** The request of a movie list: its own endpoint and only the page, 1 when omitted. */
  function ListCall(l: MovieList, page: Value): (call: Call)
    ensures KeysOf(call.params) == ["page"]
    ensures page.Undefined? ==> Find(call.params, "page") == Some(Num(1))
    ensures forall l' :: l' != l ==> call.path != ListPath(l')
  {
    Call(ListPath(l), [("page", PageArg(page))])
  }

  /** An omitted page asks TMDB for page 1 in the client's default language. */
  lemma ListDefaultQuery(c: TmdbClient.Client, l: MovieList)
    ensures Find(TmdbClient.QueryOf(c, ListCall(l, Undefined).params), "page") == Some("1")
    ensures Find(TmdbClient.QueryOf(c, ListCall(l, Undefined).params), "language") == Some(c.language)
  {
    PageOnlyQuery(c, Undefined);
    assert ParamText(Num(1)) == "1";
  }

  function GetList(c: TmdbClient.Client, l: MovieList, page: Value): (r: Result<SearchResult<Movie>, Error>)
    ensures PagedFrom(Fetch(c, ListCall(l, page)), CreateMovie, r)
  {
    Paged(c, ListCall(l, page), CreateMovie)
  }

  /** `/movie/${id}` followed by an optional sub-resource. */
  function MoviePath(id: int, sub: string): (p: string)
    ensures "/movie/" <= p
  {
    "/movie/" + IdText(id) + sub
  }

  /** Different ids address different movies. */
  lemma MoviePathInjective(a: int, b: int, sub: string)
    requires MoviePath(a, sub) == MoviePath(b, sub)
    ensures a == b
  {
    IdPathInjective("/movie/", a, b, sub);
  }

  /** `findById(id)` and `getMovieDetails(id)`: the details of one movie. */
  function GetMovieDetails(c: TmdbClient.Client, id: int): (r: Result<MovieDetails, Error>)
    ensures Fetch(c, Call(MoviePath(id, ""), [])).Err? ==> r == Err(Fetch(c, Call(MoviePath(id, ""), [])).error)
    ensures r.Ok? ==> CreateMovieDetails(Fetch(c, Call(MoviePath(id, ""), [])).value) == r
    ensures Fetch(c, Call(MoviePath(id, ""), [])).Ok? ==> r == CreateMovieDetails(Fetch(c, Call(MoviePath(id, ""), [])).value)
  {
    var data :- Fetch(c, Call(MoviePath(id, ""), []));
    CreateMovieDetails(data)
  }

  /** The sub-resources returned as TMDB sends them. */
  datatype RawResource = Credits | Videos | Images | Reviews

  /** The request for a raw sub-resource; only reviews are paged. */
  function RawCall(id: int, res: RawResource, page: Value): (call: Call)
    ensures res.Reviews? ==> call.path == MoviePath(id, "/reviews") && call.params == [("page", PageArg(page))]
    ensures !res.Reviews? ==> call.params == []
  {
    match res
    case Credits => Call(MoviePath(id, "/credits"), [])
    case Videos => Call(MoviePath(id, "/videos"), [])
    case Images => Call(MoviePath(id, "/images"), [])
    case Reviews => Call(MoviePath(id, "/reviews"), [("page", PageArg(page))])
  }

  function GetRaw(c: TmdbClient.Client, id: int, res: RawResource, page: Value): (r: Result<Value, Error>)
    ensures Raw(c, RawCall(id, res, page), r)
  {
    Fetch(c, RawCall(id, res, page))
  }

  /** `getSimilarMovies(id, page)` (`related` false) and `getRecommendedMovies(id, page)`. */
  function RelatedCall(id: int, recommended: bool, page: Value): (call: Call)
    ensures call.params == [("page", PageArg(page))]
    ensures call.path == MoviePath(id, if recommended then "/recommendations" else "/similar")
  {
    Call(MoviePath(id, if recommended then "/recommendations" else "/similar"), [("page", PageArg(page))])
  }

  function GetRelated(c: TmdbClient.Client, id: int, recommended: bool, page: Value): (r: Result<SearchResult<Movie>, Error>)
    ensures PagedFrom(Fetch(c, RelatedCall(id, recommended, page)), CreateMovie, r)
  {
    Paged(c, RelatedCall(id, recommended, page), CreateMovie)
  }
}
