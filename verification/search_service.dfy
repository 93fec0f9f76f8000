/** The domain search service: every method hands its arguments, unchanged, to exactly one
    method of one repository and returns what that method returns. A service operation is
    therefore described by the request its repository method sends. */
module SearchService {
  import opened Wrappers
  import opened Js
  import opened Query
  import opened Errors
  import opened Repository
  import Filters
  import MovieRepository
  import TvShowRepository
  import PersonRepository
  import SearchRepository

  /** The four repositories the service is built from. */
  datatype Repo = MovieRepo | TvShowRepo | PersonRepo | SearchRepo

  /** The service's methods with their arguments. The four movie lists and the four TV
      lists are one operation each, told apart by the list; similar and recommended titles
      likewise, and the movie and TV credits of a person. */
  datatype Operation =
    | SearchMovies(filters: Params)
    | SearchTvShows(filters: Params)
    | SearchPeople(filters: Params)
    | MultiSearch(filters: Params)
    | DiscoverMovies(filters: Params)
    | DiscoverTvShows(filters: Params)
    | GetTrending(mediaType: Filters.MediaType, timeWindow: Filters.TimeWindow, page: Value)
    | GetMovieDetails(id: int)
    | GetTvShowDetails(id: int)
    | GetPersonDetails(id: int)
    | GetMovieList(movieList: MovieRepository.MovieList, page: Value)
    | GetTvList(tvList: TvShowRepository.TvList, page: Value)
    | GetPopularPeople(page: Value)
    | GetRelatedMovies(id: int, recommended: bool, page: Value)
    | GetRelatedTvShows(id: int, recommended: bool, page: Value)
    | GetPersonCredits(id: int, tv: bool)

  /** The repository each method delegates to. */
  function RepositoryOf(op: Operation): Repo {
    match op
    case SearchMovies(_) => MovieRepo
    case DiscoverMovies(_) => MovieRepo
    case GetMovieDetails(_) => MovieRepo
    case GetMovieList(_, _) => MovieRepo
    case GetRelatedMovies(_, _, _) => MovieRepo
    case SearchTvShows(_) => TvShowRepo
    case DiscoverTvShows(_) => TvShowRepo
    case GetTvShowDetails(_) => TvShowRepo
    case GetTvList(_, _) => TvShowRepo
    case GetRelatedTvShows(_, _, _) => TvShowRepo
    case SearchPeople(_) => PersonRepo
    case GetPersonDetails(_) => PersonRepo
    case GetPopularPeople(_) => PersonRepo
    case GetPersonCredits(_, _) => PersonRepo
    case MultiSearch(_) => SearchRepo
    case GetTrending(_, _, _) => SearchRepo
  }

  /** The endpoints a repository serves: its search and discover endpoints and the
      resources under its own prefix. */
  predicate Serves(repo: Repo, path: string) {
    match repo
    case MovieRepo => path == "/search/movie" || path == "/discover/movie" || "/movie/" <= path
    case TvShowRepo => path == "/search/tv" || path == "/discover/tv" || "/tv/" <= path
    case PersonRepo => path == "/search/person" || "/person/" <= path
    case SearchRepo => path == "/search/multi" || "/trending/" <= path
  }

  /** The request the delegated repository method sends. Only a movie discovery can fail
      before anything is sent: a list filter that cannot be joined. */
  function Request(op: Operation): (r: Result<Call, Error>)
    ensures r.Err? ==> op.DiscoverMovies?
  {
    match op
    case SearchMovies(f) => Ok(MovieRepository.SearchMoviesCall(f))
    case DiscoverMovies(f) => MovieRepository.DiscoverMoviesCall(f)
    case GetMovieDetails(id) => Ok(Call(MovieRepository.MoviePath(id, ""), []))
    case GetMovieList(l, page) => Ok(MovieRepository.ListCall(l, page))
    case GetRelatedMovies(id, rec, page) => Ok(MovieRepository.RelatedCall(id, rec, page))
    case SearchTvShows(f) => Ok(TvShowRepository.SearchTvShowsCall(f))
    case DiscoverTvShows(f) => Ok(TvShowRepository.DiscoverTvShowsCall(f))
    case GetTvShowDetails(id) => Ok(Call(TvShowRepository.TvPath(id, ""), []))
    case GetTvList(l, page) => Ok(TvShowRepository.ListCall(l, page))
    case GetRelatedTvShows(id, rec, page) => Ok(TvShowRepository.RelatedCall(id, rec, page))
    case SearchPeople(f) => Ok(PersonRepository.SearchPeopleCall(f))
    case GetPersonDetails(id) => Ok(PersonRepository.DetailsCall(id))
    case GetPopularPeople(page) => Ok(PersonRepository.PopularCall(page))
    case GetPersonCredits(id, tv) => Ok(PersonRepository.CreditsCall(id, tv))
    case MultiSearch(f) => Ok(SearchRepository.MultiSearchCall(f))
    case GetTrending(m, w, page) => Ok(SearchRepository.TrendingCall(m, w, page))
  }

  /** Every request goes to an endpoint of the repository the method delegates to. */
  lemma RequestServed(op: Operation)
    requires Request(op).Ok?
    ensures Serves(RepositoryOf(op), Request(op).value.path)
  {
    match RepositoryOf(op)
    case MovieRepo => MovieServed(op);
    case TvShowRepo => TvShowServed(op);
    case PersonRepo => PersonServed(op);
    case SearchRepo => SearchServed(op);
  }

  lemma MovieServed(op: Operation)
    requires Request(op).Ok? && RepositoryOf(op) == MovieRepo
    ensures Serves(MovieRepo, Request(op).value.path)
  {
    if op.SearchMovies? {
      assert Request(op).value.path == "/search/movie";
    }
  }

  lemma TvShowServed(op: Operation)
    requires RepositoryOf(op) == TvShowRepo
    ensures Request(op).Ok? && Serves(TvShowRepo, Request(op).value.path)
  {
    if op.SearchTvShows? {
      assert Request(op).value.path == "/search/tv";
    }
  }

  lemma PersonServed(op: Operation)
    requires RepositoryOf(op) == PersonRepo
    ensures Request(op).Ok? && Serves(PersonRepo, Request(op).value.path)
  {
    if op.SearchPeople? {
      assert Request(op).value.path == "/search/person";
    }
  }

  lemma SearchServed(op: Operation)
    requires RepositoryOf(op) == SearchRepo
    ensures Request(op).Ok? && Serves(SearchRepo, Request(op).value.path)
  {
    if op.MultiSearch? {
      assert Request(op).value.path == "/search/multi";
    }
  }

  /** The characters that tell the endpoints of the repositories apart. */
  lemma ServedMarks(repo: Repo, path: string)
    requires Serves(repo, path)
    ensures |path| >= 4
    ensures repo == MovieRepo ==>
      (path[1] == 's' && |path| == 13 && path[9] == 'o') || (path[1] == 'd' && |path| == 15) || path[1] == 'm'
    ensures repo == TvShowRepo ==>
      (path[1] == 's' && |path| == 10) || (path[1] == 'd' && |path| == 12) || (path[1] == 't' && path[2] == 'v')
    ensures repo == PersonRepo ==> (path[1] == 's' && |path| == 14) || path[1] == 'p'
    ensures repo == SearchRepo ==> (path[1] == 's' && |path| == 13 && path[9] == 'u') || (path[1] == 't' && path[2] == 'r')
  {
  }

  /** No endpoint is served by two repositories. */
  lemma ServedByOne(a: Repo, b: Repo, path: string)
    requires Serves(a, path) && Serves(b, path)
    ensures a == b
  {
    ServedMarks(a, path);
    ServedMarks(b, path);
  }

  /** The endpoint of a request tells which repository sent it. */
  lemma RouteByPath(op1: Operation, op2: Operation)
    requires Request(op1).Ok? && Request(op2).Ok?
    requires Request(op1).value.path == Request(op2).value.path
    ensures RepositoryOf(op1) == RepositoryOf(op2)
  {
    RequestServed(op1);
    RequestServed(op2);
    ServedByOne(RepositoryOf(op1), RepositoryOf(op2), Request(op1).value.path);
  }

  /** The service forwards an omitted page as omitted; the repository then sends page 1. */
  lemma OmittedPageIsOne(op: Operation)
    requires op.GetMovieList? || op.GetTvList? || op.GetPopularPeople? || op.GetRelatedMovies?
          || op.GetRelatedTvShows? || op.GetTrending?
    requires op.page.Undefined?
    ensures Find(Request(op).value.params, "page") == Some(Num(1))
  {
    if op.GetRelatedMovies? {
      assert Request(op).value.params == [("page", Num(1))];
    }
  }
}
