/** The application use-cases: thin wrappers over the search service that give every page
    argument the default 1, compose a search filter record as `{ query, page, ...options }`,
    and offer trending shortcuts with a fixed media type and a one-week default window. */
module UseCases {
  import opened Wrappers
  import opened Js
  import opened Query
  import opened Repository
  import Filters
  import MovieRepository
  import TvShowRepository
  import TmdbClient
  import SearchRepository
  import opened SearchService

  /** `{ query, page, ...options }` with `page = 1` as a default argument: the options are
      spread last, so any key they hold replaces the query or the page. */
  function SearchFilters(query: string, page: Value, options: Option<Params>): (f: Params)
    requires DistinctKeys(options.GetOr([]))
    ensures var opts := options.GetOr([]);
      && Find(f, "query") == (if "query" in KeysOf(opts) then Find(opts, "query") else Some(Str(query)))
      && Find(f, "page") == (if "page" in KeysOf(opts) then Find(opts, "page") else Some(PageArg(page)))
      && (forall k :: k != "query" && k != "page" ==> Find(f, k) == Find(opts, k))
    ensures DistinctKeys(f) && KeysOf(f)[..2] == ["query", "page"]
  {
    var base: Params := [("query", Str(query)), ("page", PageArg(page))];
    var opts := options.GetOr([]);
    var f := Spread(base, opts);
    assert KeysOf(base) == ["query", "page"];
    SpreadKeysPrefix(base, opts);
    SpreadDistinct(base, opts);
    forall k ensures Find(f, k) == if k in KeysOf(opts) then Find(opts, k) else Find(base, k) {
      SpreadFind(base, opts, k);
    }
    forall k | k != "query" && k != "page" ensures Find(f, k) == Find(opts, k) {
      assert k !in KeysOf(base);
    }
    f
  }

  /** The trending shortcuts `getTrendingMovies`, `getTrendingTvShows`, `getTrendingPeople`
      and `getTrendingAll`. */
  datatype TrendingShortcut = TrendingMovies | TrendingTvShows | TrendingPeople | TrendingAll

  function ShortcutMedia(s: TrendingShortcut): Filters.MediaType {
    match s
    case TrendingMovies => Filters.Movie
    case TrendingTvShows => Filters.Tv
    case TrendingPeople => Filters.Person
    case TrendingAll => Filters.All
  }

  /** Each shortcut asks for its own media type, and together they cover all of them. */
  lemma ShortcutMediaBijective(m: Filters.MediaType)
    ensures exists s :: ShortcutMedia(s) == m
    ensures forall s1, s2 :: ShortcutMedia(s1) == ShortcutMedia(s2) ==> s1 == s2
  {
    match m
    case Movie => assert ShortcutMedia(TrendingMovies) == m;
    case Tv => assert ShortcutMedia(TrendingTvShows) == m;
    case Person => assert ShortcutMedia(TrendingPeople) == m;
    case All => assert ShortcutMedia(TrendingAll) == m;
  }

  /** The methods of `MovieSearchUseCase`. An omitted page is `Undefined`, omitted options
      are `None`. The four list methods are one, told apart by the list, and so are
      `getSimilarMovies` and `getRecommendedMovies`. */
  datatype MovieUseCase =
    | MovieSearch(query: string, page: Value, options: Option<Params>)
    | MovieDiscover(filters: Params)
    | MovieDetails(id: int)
    | MovieListing(list: MovieRepository.MovieList, page: Value)
    | MovieRelated(id: int, recommended: bool, page: Value)

  /** The methods of `TvShowSearchUseCase`, grouped as for movies. */
  datatype TvShowUseCase =
    | TvSearch(query: string, page: Value, options: Option<Params>)
    | TvDiscover(filters: Params)
    | TvDetails(id: int)
    | TvListing(list: TvShowRepository.TvList, page: Value)
    | TvRelated(id: int, recommended: bool, page: Value)

  /** The methods of `PersonSearchUseCase`; the two credit methods are one. */
  datatype PersonUseCase =
    | PersonSearch(query: string, page: Value, options: Option<Params>)
    | PersonDetails(id: int)
    | PersonPopular(page: Value)
    | PersonCredits(id: int, tv: bool)

  /** The methods of `GeneralSearchUseCase`; an omitted time window is `None`. */
  datatype GeneralUseCase =
    | MultiSearchOf(query: string, page: Value, options: Option<Params>)
    | TrendingOf(mediaType: Filters.MediaType, timeWindow: Filters.TimeWindow, page: Value)
    | ShortcutOf(shortcut: TrendingShortcut, window: Option<Filters.TimeWindow>, page: Value)

  /** A call of one of the four use-cases. */
  datatype Invocation =
    | Movies(movie: MovieUseCase)
    | TvShows(tv: TvShowUseCase)
    | People(person: PersonUseCase)
    | General(general: GeneralUseCase)
  {
    /** The options of a search are an object, so each key appears once. */
    predicate WellFormed() {
      match this
      case Movies(MovieSearch(_, _, options)) => DistinctKeys(options.GetOr([]))
      case TvShows(TvSearch(_, _, options)) => DistinctKeys(options.GetOr([]))
      case People(PersonSearch(_, _, options)) => DistinctKeys(options.GetOr([]))
      case General(MultiSearchOf(_, _, options)) => DistinctKeys(options.GetOr([]))
      case _ => true
    }

    /** The page argument of the methods that take one besides the searches. */
    function PageArgument(): Option<Value> {
      match this
      case Movies(MovieListing(_, page)) => Some(page)
      case Movies(MovieRelated(_, _, page)) => Some(page)
      case TvShows(TvListing(_, page)) => Some(page)
      case TvShows(TvRelated(_, _, page)) => Some(page)
      case People(PersonPopular(page)) => Some(page)
      case General(TrendingOf(_, _, page)) => Some(page)
      case General(ShortcutOf(_, _, page)) => Some(page)
      case _ => None
    }
  }

  /** The repository each use-case is about. */
  function Domain(u: Invocation): Repo {
    match u
    case Movies(_) => MovieRepo
    case TvShows(_) => TvShowRepo
    case People(_) => PersonRepo
    case General(_) => SearchRepo
  }

  /** The paged service operations, whose page is an argument of its own. */
  predicate PagedOperation(op: Operation) {
    op.GetMovieList? || op.GetTvList? || op.GetPopularPeople? || op.GetRelatedMovies?
    || op.GetRelatedTvShows? || op.GetTrending?
  }

  function MovieDelegate(m: MovieUseCase): (op: Operation)
    requires m.MovieSearch? ==> DistinctKeys(m.options.GetOr([]))
    ensures RepositoryOf(op) == MovieRepo
    ensures PagedOperation(op) <==> m.MovieListing? || m.MovieRelated?
    ensures PagedOperation(op) ==> op.page == PageArg(m.page)
  {
    match m
    case MovieSearch(q, page, options) => SearchMovies(SearchFilters(q, page, options))
    case MovieDiscover(f) => DiscoverMovies(f)
    case MovieDetails(id) => GetMovieDetails(id)
    case MovieListing(l, page) => GetMovieList(l, PageArg(page))
    case MovieRelated(id, rec, page) => GetRelatedMovies(id, rec, PageArg(page))
  }

  function TvShowDelegate(t: TvShowUseCase): (op: Operation)
    requires t.TvSearch? ==> DistinctKeys(t.options.GetOr([]))
    ensures RepositoryOf(op) == TvShowRepo
    ensures PagedOperation(op) <==> t.TvListing? || t.TvRelated?
    ensures PagedOperation(op) ==> op.page == PageArg(t.page)
  {
    match t
    case TvSearch(q, page, options) => SearchTvShows(SearchFilters(q, page, options))
    case TvDiscover(f) => DiscoverTvShows(f)
    case TvDetails(id) => GetTvShowDetails(id)
    case TvListing(l, page) => GetTvList(l, PageArg(page))
    case TvRelated(id, rec, page) => GetRelatedTvShows(id, rec, PageArg(page))
  }

  function PersonDelegate(p: PersonUseCase): (op: Operation)
    requires p.PersonSearch? ==> DistinctKeys(p.options.GetOr([]))
    ensures RepositoryOf(op) == PersonRepo
    ensures PagedOperation(op) <==> p.PersonPopular?
    ensures PagedOperation(op) ==> op.page == PageArg(p.page)
  {
    match p
    case PersonSearch(q, page, options) => SearchPeople(SearchFilters(q, page, options))
    case PersonDetails(id) => GetPersonDetails(id)
    case PersonPopular(page) => GetPopularPeople(PageArg(page))
    case PersonCredits(id, tv) => GetPersonCredits(id, tv)
  }

  function GeneralDelegate(g: GeneralUseCase): (op: Operation)
    requires g.MultiSearchOf? ==> DistinctKeys(g.options.GetOr([]))
    ensures RepositoryOf(op) == SearchRepo
    ensures PagedOperation(op) <==> !g.MultiSearchOf?
    ensures PagedOperation(op) ==> op.page == PageArg(g.page)
  {
    match g
    case MultiSearchOf(q, page, options) => MultiSearch(SearchFilters(q, page, options))
    case TrendingOf(m, w, page) => GetTrending(m, w, PageArg(page))
    case ShortcutOf(s, w, page) => GetTrending(ShortcutMedia(s), w.GetOr(Filters.Week), PageArg(page))
  }

  /** The service call a use-case method makes. It stays in its use-case's domain, and the
      use-case default means a paged operation never reaches the service without a page. */
  function Delegate(u: Invocation): (op: Operation)
    requires u.WellFormed()
    ensures RepositoryOf(op) == Domain(u)
    ensures PagedOperation(op) <==> u.PageArgument().Some?
    ensures PagedOperation(op) ==> op.page == PageArg(u.PageArgument().value) && !op.page.Undefined?
  {
    match u
    case Movies(m) => MovieDelegate(m)
    case TvShows(t) => TvShowDelegate(t)
    case People(p) => PersonDelegate(p)
    case General(g) => GeneralDelegate(g)
  }

  /** `getPopularMovies()` (and every other movie list) asks TMDB for page 1 in the client's
      default language. */
  lemma PopularMoviesSendPageOne(c: TmdbClient.Client, l: MovieRepository.MovieList)
    ensures Request(Delegate(Movies(MovieListing(l, Undefined)))) == Ok(MovieRepository.ListCall(l, Undefined))
    ensures var q := TmdbClient.QueryOf(c, MovieRepository.ListCall(l, Undefined).params);
      Find(q, "page") == Some("1") && Find(q, "language") == Some(c.language)
  {
    var op := Delegate(Movies(MovieListing(l, Undefined)));
    assert op == GetMovieList(l, Num(1));
    var call := MovieRepository.ListCall(l, Num(1));
    assert Request(op) == Ok(call);
    assert call == MovieRepository.ListCall(l, Undefined);
    MovieRepository.ListDefaultQuery(c, l);
  }

  /** The filter record of a search with neither page nor options. */
  function BareFilters(query: string): Params {
    [("query", Str(query)), ("page", Num(1))]
  }

  /** `searchMovies(query)` with neither page nor options sends the query, page 1,
      `include_adult=false` and no language at all. */
  lemma SearchMoviesDefaults(c: TmdbClient.Client, query: string)
    ensures Request(Delegate(Movies(MovieSearch(query, Undefined, None))))
            == Ok(MovieRepository.SearchMoviesCall(BareFilters(query)))
    ensures var call := MovieRepository.SearchMoviesCall(BareFilters(query));
      var q := TmdbClient.QueryOf(c, call.params);
      && Find(call.params, "query") == Some(Str(query))
      && Find(q, "page") == Some("1")
      && Find(q, "include_adult") == Some("false")
      && Find(q, "language").None?
  {
    var f := BareFilters(query);
    assert Spread(f, []) == f;
    var op := Delegate(Movies(MovieSearch(query, Undefined, None)));
    assert op == SearchMovies(f);
    assert Request(op) == Ok(MovieRepository.SearchMoviesCall(f));
    BareSearchQuery(c, query);
  }

  lemma BareSearchQuery(c: TmdbClient.Client, query: string)
    ensures var call := MovieRepository.SearchMoviesCall(BareFilters(query));
      var q := TmdbClient.QueryOf(c, call.params);
      && Find(call.params, "query") == Some(Str(query))
      && Find(q, "page") == Some("1")
      && Find(q, "include_adult") == Some("false")
      && Find(q, "language").None?
  {
    var f := BareFilters(query);
    assert Lookup(f, "query") == Str(query) && Lookup(f, "page") == Num(1);
    assert Lookup(f, "includeAdult") == Undefined && Lookup(f, "language") == Undefined;
    MovieRepository.SearchMoviesQueryDefaults(c, f);
    MovieRepository.SearchMoviesDropsLanguage(c, f);
    assert ParamText(Num(1)) == "1" && ParamText(Bool(false)) == "false";
  }

  /** A page among the options wins over the page argument. */
  lemma OptionsPageWins(query: string, page: Value, p: Value)
    ensures Find(SearchFilters(query, page, Some([("page", p)])), "page") == Some(p)
  {
  }

  /** The trending shortcuts default to the weekly window and page 1, so
      `getTrendingMovies()` asks for `/trending/movie/week`. */
  lemma ShortcutDefaults(s: TrendingShortcut)
    ensures Delegate(General(ShortcutOf(s, None, Undefined))) == GetTrending(ShortcutMedia(s), Filters.Week, Num(1))
    ensures Request(Delegate(General(ShortcutOf(s, None, Undefined))))
            == Ok(SearchRepository.TrendingCall(ShortcutMedia(s), Filters.Week, Num(1)))
    ensures SearchRepository.TrendingCall(ShortcutMedia(s), Filters.Week, Num(1)).path
            == "/trending/" + Filters.MediaTypeCode(ShortcutMedia(s)) + "/week"
  {
    assert Filters.TimeWindowCode(Filters.Week) == "week";
  }
}
