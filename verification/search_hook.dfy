/** The browser's search hook: each operation first checks that an API key is configured,
    then calls one repository method and turns its outcome into a `{ success, data, error }`
    response, keeping a loading flag and the last error message as state. The repository's
    outcome is an input; the model records the request the repository method sends. */
module SearchHook {
  import opened Wrappers
  import opened Js
  import opened Strings
  import opened Query
  import opened Errors
  import opened Repository
  import Config
  import Container
  import DiConfiguration
  import MovieRepository
  import TvShowRepository
  import PersonRepository

  const Placeholder: string := "your-api-key-here"
  const NotConfigured: string := "TMDB API key is not configured. Please add your API key to .env file."

  /** `checkApiKeyValid()`: a key is configured when it is non-empty, not the placeholder of
      the example environment file, and not blank; a configuration that cannot be read
      counts as no key. */
  function KeyValid(config: Result<Config.TmdbConfig, Error>): (b: bool)
    ensures b <==> config.Ok? && config.value.apiKey != "" && config.value.apiKey != Placeholder
                   && exists k :: 0 <= k < |config.value.apiKey| && !IsWhite(config.value.apiKey[k])
  {
    match config
    case Err(_) => false
    case Ok(c) =>
      TrimEmptyIffWhite(c.apiKey);
      c.apiKey != "" && c.apiKey != Placeholder && Trim(c.apiKey) != ""
  }

  /** Read from the environment: the key must be set, must not be the placeholder, and must
      not be blank. */
  lemma KeyValidFromEnv(env: Config.Env)
    ensures KeyValid(Config.LoadConfig(env)) <==>
      Config.IsSet(env, Config.ApiKeyVar) && env[Config.ApiKeyVar] != Placeholder
      && exists k :: 0 <= k < |env[Config.ApiKeyVar]| && !IsWhite(env[Config.ApiKeyVar][k])
  {
  }

  /** The services the hook resolves from the shared container when it is mounted, in
      order. */
  const Mounted: seq<string> := ["MovieRepository", "TvShowRepository", "PersonRepository", "ConfigService"]

  /** Mounting the hook: its services are resolved one after the other, and the first error
      is thrown out of the hook before any operation, and so before any key check, runs. */
  function Mount(s: Container.State): Container.Outcome<seq<Container.Obj>>
    requires Container.Ranked(s.services, DiConfiguration.Rank)
  {
    Container.ResolveAll(s, Mounted, DiConfiguration.Rank, 4)
  }

  /** On a first run, mounting succeeds exactly when the API key is set; without it the hook
      throws the missing-key `ConfigurationError`, and its key check is never reached. Once
      mounted, the key check rejects only the placeholder and a blank key. */
  lemma MountNeedsKey(s0: Container.State, env: Config.Env)
    requires DiConfiguration.Fresh(s0)
    ensures var s := DiConfiguration.Configure(s0, Config.Holder(None), env);
      && Container.Ranked(s.services, DiConfiguration.Rank)
      && (Mount(s).result.Ok? <==> Config.IsSet(env, Config.ApiKeyVar))
      && (!Config.IsSet(env, Config.ApiKeyVar) ==>
            Mount(s).result == Err(Container.Thrown(ConfigurationError(Config.MissingKeyMessage))))
      && (Mount(s).result.Ok? ==>
            (KeyValid(Config.LoadConfig(env)) <==>
              (env[Config.ApiKeyVar] != Placeholder
               && exists k :: 0 <= k < |env[Config.ApiKeyVar]| && !IsWhite(env[Config.ApiKeyVar][k]))))
  {
    var h := Config.Holder(None);
    var s := DiConfiguration.Configure(s0, h, env);
    DiConfiguration.ConfigureWellFormed(s0, h, env);
    DiConfiguration.ResolveConfigured(s0, h, env, Mounted[0]);
    KeyValidFromEnv(env);
  }

  /** The hook's operations. */
  datatype Operation =
    | SearchMoviesOp(query: string)
    | SearchTvShowsOp(query: string)
    | SearchPeopleOp(query: string)
    | PopularMoviesOp
    | PopularTvShowsOp
    | PopularPeopleOp

  /** The message of a failure whose error has no message of its own. */
  function Fallback(op: Operation): string {
    match op
    case SearchMoviesOp(_) => "An error occurred while searching for movies"
    case SearchTvShowsOp(_) => "An error occurred while searching for TV shows"
    case SearchPeopleOp(_) => "An error occurred while searching for people"
    case PopularMoviesOp => "An error occurred while fetching popular movies"
    case PopularTvShowsOp => "An error occurred while fetching popular TV shows"
    case PopularPeopleOp => "An error occurred while fetching popular people"
  }

  /** `err.message || fallback`: never empty. */
  function ErrorText(op: Operation, e: Error): (t: string)
    ensures t != ""
    ensures e.message != "" ==> t == e.message
  {
    if e.message != "" then e.message else Fallback(op)
  }

  /** The search filters the hook builds: the query and `options?.page || 1`. */
  function HookFilters(query: string, page: Value): Params {
    [("query", Str(query)), ("page", Or(page, Num(1)))]
  }

  /** The request of the repository method an operation calls. */
  function RepositoryRequest(op: Operation, page: Value): (call: Call)
    ensures Find(call.params, "page") == Some(Or(page, Num(1)))
  {
    var p := Or(page, Num(1));
    match op
    case SearchMoviesOp(q) =>
      assert Lookup(HookFilters(q, page), "page") == p;
      MovieRepository.SearchMoviesCall(HookFilters(q, page))
    case SearchTvShowsOp(q) =>
      assert Lookup(HookFilters(q, page), "page") == p;
      TvShowRepository.SearchTvShowsCall(HookFilters(q, page))
    case SearchPeopleOp(q) =>
      assert Lookup(HookFilters(q, page), "page") == p;
      PersonRepository.SearchPeopleCall(HookFilters(q, page))
    case PopularMoviesOp => MovieRepository.ListCall(MovieRepository.Popular, p)
    case PopularTvShowsOp => TvShowRepository.ListCall(TvShowRepository.Popular, p)
    case PopularPeopleOp => PersonRepository.PopularCall(p)
  }

  /** A search sends the query it was given. */
  lemma SearchSendsQuery(op: Operation, page: Value)
    requires op.SearchMoviesOp? || op.SearchTvShowsOp? || op.SearchPeopleOp?
    ensures Find(RepositoryRequest(op, page).params, "query") == Some(Str(op.query))
  {
    assert Lookup(HookFilters(op.query, page), "query") == Str(op.query);
  }

  /** An omitted page, a page 0 and a `NaN` page all ask for page 1. */
  lemma PageDefaultsToOne(op: Operation, page: Value)
    requires page.Undefined? || page == Num(0) || page.NaN?
    ensures Find(RepositoryRequest(op, page).params, "page") == Some(Num(1))
  {
  }

  /** The hook's state: whether a call is running and the last error shown. */
  datatype HookState = HookState(loading: bool, error: Option<string>)

  /** What an operation returns to the page. */
  datatype Response<T> = Response(success: bool, data: Option<T>, error: Option<string>)

  /** The outcome of one operation: its response, the state afterwards, and the request the
      repository was asked to send, if any. */
  datatype Outcome<T> = Outcome(response: Response<T>, state: HookState, sent: Option<Call>)

  /** One run of an operation, given the configuration it reads and what the repository
      method returns when it is called. */
  function Run<T>(op: Operation, config: Result<Config.TmdbConfig, Error>, page: Value,
                  state: HookState, reply: Result<T, Error>): (out: Outcome<T>)
    ensures !KeyValid(config) ==> out.sent.None? && out.state.loading == state.loading
    ensures !KeyValid(config) ==> out.response == Response(false, None, Some(NotConfigured))
    ensures KeyValid(config) ==> out.sent == Some(RepositoryRequest(op, page)) && !out.state.loading
    ensures out.response.success <==> KeyValid(config) && reply.Ok?
    ensures out.response.success ==> out.response.data == Some(reply.value) && out.response.error.None?
    ensures !out.response.success ==> out.response.data.None? && out.response.error.Some? && out.response.error.value != ""
    ensures out.state.error == out.response.error
  {
    if !KeyValid(config) then
      Outcome(Response(false, None, Some(NotConfigured)), HookState(state.loading, Some(NotConfigured)), None)
    else
      var sent := Some(RepositoryRequest(op, page));
      match reply
      case Ok(data) => Outcome(Response(true, Some(data), None), HookState(false, None), sent)
      case Err(e) =>
        var message := ErrorText(op, e);
        Outcome(Response(false, None, Some(message)), HookState(false, Some(message)), sent)
  }

  /** A failing repository reports its own message when it has one, and the operation's
      fallback otherwise; the error is kept in the state as well. */
  lemma FailureMessage<T>(op: Operation, config: Result<Config.TmdbConfig, Error>, page: Value,
                          state: HookState, e: Error)
    requires KeyValid(config)
    ensures var out := Run<T>(op, config, page, state, Err(e));
      out.response.error == out.state.error
      && out.response.error == Some(if e.message != "" then e.message else Fallback(op))
  {
  }

  /** Without a key nothing is sent, whatever the repository would have returned. */
  lemma GuardIgnoresRepository<T>(op: Operation, config: Result<Config.TmdbConfig, Error>, page: Value,
                                  state: HookState, r1: Result<T, Error>, r2: Result<T, Error>)
    requires !KeyValid(config)
    ensures Run(op, config, page, state, r1) == Run(op, config, page, state, r2)
  {
  }
}
