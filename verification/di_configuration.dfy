/** The application's wiring: `configure` registers the configuration service, the two
    HTTP clients and the four TMDB repositories in the shared container, each as a
    singleton built by an arrow function from its declared dependencies. The configuration
    service's factory is `BrowserConfigService.getInstance()`, which throws when the API key
    is missing; every other service depends on it, so then every resolution throws. */
module DiConfiguration {
  import opened Wrappers
  import opened Container
  import Config

  /** One `container.singleton(name, factory, dependencies)` call. */
  datatype Registration = Registration(name: string, factory: Callable, deps: seq<string>)

  /** The factory of `ConfigService`, `() => BrowserConfigService.getInstance()`: an arrow
      function that throws whatever `getInstance` throws, given the class-level holder and
      the environment it reads. */
  function ConfigFactory(h: Config.Holder, env: Config.Env): Callable {
    var r := Config.GetInstance(h, env).0;
    Callable(0, false, if r.Err? then Some(r.error) else None)
  }

  /** The seven registrations of `configure`, in order, with the configuration service's
      factory given. Each factory is an arrow function, which has no prototype; only the
      first can throw. */
  function Registrations(config: Callable): seq<Registration> {
    [Registration("ConfigService", config, []),
     Registration("HttpClient", Callable(1, false, None), ["ConfigService"]),
     Registration("TmdbHttpClient", Callable(2, false, None), ["HttpClient", "ConfigService"]),
     Registration("MovieRepository", Callable(3, false, None), ["TmdbHttpClient"]),
     Registration("TvShowRepository", Callable(4, false, None), ["TmdbHttpClient"]),
     Registration("PersonRepository", Callable(5, false, None), ["TmdbHttpClient"]),
     Registration("SearchRepository", Callable(6, false, None), ["TmdbHttpClient"])]
  }

  function NamesOf(regs: seq<Registration>): set<string> {
    set i | 0 <= i < |regs| :: regs[i].name
  }

  predicate DistinctNames(regs: seq<Registration>) {
    forall i, j :: 0 <= i < j < |regs| ==> regs[i].name != regs[j].name
  }

  /** The registrations applied in order, each as a singleton. (The container is part of
      the measure only so that the constant registration list alone never lets the verifier
      unfold the whole configuration.) */
  function RegisterAll(s: State, regs: seq<Registration>): State
    decreases |regs|, s.next
  {
    if |regs| == 0 then s else RegisterAll(Singleton(s, regs[0].name, regs[0].factory, regs[0].deps), regs[1..])
  }

  lemma NamesOfCons(regs: seq<Registration>)
    requires |regs| > 0
    ensures NamesOf(regs) == {regs[0].name} + NamesOf(regs[1..])
  {
    var rest := regs[1..];
    forall k | k in NamesOf(regs) ensures k in {regs[0].name} + NamesOf(rest) {
      var i :| 0 <= i < |regs| && regs[i].name == k;
      if i > 0 {
        assert rest[i - 1].name == k;
      }
    }
    forall k | k in NamesOf(rest) ensures k in NamesOf(regs) {
      var i :| 0 <= i < |rest| && rest[i].name == k;
      assert regs[i + 1].name == k;
    }
  }

  /** Registrations add exactly their names and leave the cache and the identities alone. */
  lemma {:induction false} RegisterAllKeys(s: State, regs: seq<Registration>)
    ensures var t := RegisterAll(s, regs);
      t.services.Keys == s.services.Keys + NamesOf(regs) && t.instances == s.instances && t.next == s.next
    decreases |regs|, s.next
  {
    if |regs| > 0 {
      RegisterAllKeys(Singleton(s, regs[0].name, regs[0].factory, regs[0].deps), regs[1..]);
      NamesOfCons(regs);
    }
  }

  /** Under distinct names, each registered name holds its own singleton definition. */
  lemma {:induction false} RegisterAllAt(s: State, regs: seq<Registration>, i: int)
    requires DistinctNames(regs) && 0 <= i < |regs|
    ensures regs[i].name in RegisterAll(s, regs).services
    ensures RegisterAll(s, regs).services[regs[i].name] == Describe(regs[i].factory, regs[i].deps, true)
    decreases |regs|, s.next
  {
    if i == 0 {
      RegisterFirstAt(s, regs);
    } else {
      var s' := Singleton(s, regs[0].name, regs[0].factory, regs[0].deps);
      var rest := regs[1..];
      assert DistinctNames(rest);
      assert rest[i - 1] == regs[i];
      RegisterAllAt(s', rest, i - 1);
    }
  }

  lemma RegisterFirstAt(s: State, regs: seq<Registration>)
    requires DistinctNames(regs) && 0 < |regs|
    ensures regs[0].name in RegisterAll(s, regs).services
    ensures RegisterAll(s, regs).services[regs[0].name] == Describe(regs[0].factory, regs[0].deps, true)
  {
    var s' := Singleton(s, regs[0].name, regs[0].factory, regs[0].deps);
    var rest := regs[1..];
    assert regs[0].name !in NamesOf(rest);
    RegisterAllKeeps(s', rest, regs[0].name);
  }

  /** A name outside the registrations keeps its definition. */
  lemma {:induction false} RegisterAllKeeps(s: State, regs: seq<Registration>, k: string)
    requires k in s.services && k !in NamesOf(regs)
    ensures k in RegisterAll(s, regs).services && RegisterAll(s, regs).services[k] == s.services[k]
    decreases |regs|, s.next
  {
    if |regs| > 0 {
      NamesOfCons(regs);
      RegisterAllKeeps(Singleton(s, regs[0].name, regs[0].factory, regs[0].deps), regs[1..], k);
    }
  }

  /** Every name outside the registrations keeps its definition. */
  lemma RegisterAllKeepsOthers(s: State, regs: seq<Registration>)
    ensures forall k :: k in s.services && k !in NamesOf(regs) ==>
      k in RegisterAll(s, regs).services && RegisterAll(s, regs).services[k] == s.services[k]
  {
    forall k | k in s.services && k !in NamesOf(regs)
      ensures k in RegisterAll(s, regs).services && RegisterAll(s, regs).services[k] == s.services[k]
    {
      RegisterAllKeeps(s, regs, k);
    }
  }

  /** `DIConfiguration.configure()`, with the holder of `getInstance` and the environment
      its factory will read. */
  function Configure(s: State, h: Config.Holder, env: Config.Env): (t: State)
    ensures t.services.Keys == s.services.Keys + Names && t.instances == s.instances && t.next == s.next
    ensures forall k :: k in s.services && k !in Names ==> t.services[k] == s.services[k]
  {
    var regs := Registrations(ConfigFactory(h, env));
    RegistrationFacts(ConfigFactory(h, env));
    RegisterAllKeys(s, regs);
    RegisterAllKeepsOthers(s, regs);
    RegisterAll(s, regs)
  }

  /** The names `configure` registers. */
  const Names: set<string> := {"ConfigService", "HttpClient", "TmdbHttpClient",
    "MovieRepository", "TvShowRepository", "PersonRepository", "SearchRepository"}

  /** The four repositories, each built on the TMDB client alone. */
  const Repositories: set<string> := {"MovieRepository", "TvShowRepository", "PersonRepository", "SearchRepository"}

  /** Configuration first, then the generic client, the TMDB client, and the repositories. */
  const Rank: map<string, nat> := map[
    "ConfigService" := 0, "HttpClient" := 1, "TmdbHttpClient" := 2,
    "MovieRepository" := 3, "TvShowRepository" := 3, "PersonRepository" := 3, "SearchRepository" := 3]

  lemma RegistrationFacts(c: Callable)
    ensures DistinctNames(Registrations(c))
    ensures NamesOf(Registrations(c)) == Names
  {
    var regs := Registrations(c);
    var n := NamesOf(regs);
    var names := seq(|regs|, i requires 0 <= i < |regs| => regs[i].name);
    assert names == ["ConfigService", "HttpClient", "TmdbHttpClient",
      "MovieRepository", "TvShowRepository", "PersonRepository", "SearchRepository"];
    assert regs[0].name in n && regs[1].name in n && regs[2].name in n;
    assert regs[3].name in n && regs[4].name in n && regs[5].name in n;
    assert regs[6].name in n;
  }

  /** Every declared dependency is registered and ranks below its dependent; only the
      configuration service has none. */
  lemma RegistrationsOrdered(c: Callable)
    ensures forall i, j :: 0 <= i < |Registrations(c)| && 0 <= j < |Registrations(c)[i].deps| ==>
      && Registrations(c)[i].deps[j] in Names
      && Registrations(c)[i].name in Rank && Registrations(c)[i].deps[j] in Rank
      && Rank[Registrations(c)[i].deps[j]] < Rank[Registrations(c)[i].name]
    ensures forall i :: 0 <= i < |Registrations(c)| ==>
      (Registrations(c)[i].deps == [] <==> Registrations(c)[i].name == "ConfigService")
  {
    var regs := Registrations(c);
    assert regs[0].name == "ConfigService" && regs[0].deps == [];
    assert regs[1].name == "HttpClient" && regs[1].deps == ["ConfigService"];
    assert regs[2].name == "TmdbHttpClient" && regs[2].deps == ["HttpClient", "ConfigService"];
    assert forall i :: 3 <= i < |regs| ==> regs[i].deps == ["TmdbHttpClient"] && regs[i].name in Repositories;
  }

  /** A container with nothing registered and nothing cached, as the shared one starts. */
  predicate Fresh(s: State) {
    s.services == map[] && s.instances == map[]
  }

  /** Each configured name is a singleton built by its own arrow function as a factory. */
  lemma ConfiguredServices(s: State, h: Config.Holder, env: Config.Env)
    ensures var regs := Registrations(ConfigFactory(h, env));
      forall i :: 0 <= i < |regs| ==>
      && regs[i].name in Configure(s, h, env).services
      && Configure(s, h, env).services[regs[i].name] == Describe(regs[i].factory, regs[i].deps, true)
  {
    var regs := Registrations(ConfigFactory(h, env));
    RegistrationFacts(ConfigFactory(h, env));
    forall i | 0 <= i < |regs|
      ensures regs[i].name in Configure(s, h, env).services
      ensures Configure(s, h, env).services[regs[i].name] == Describe(regs[i].factory, regs[i].deps, true)
    {
      RegisterAllAt(s, regs, i);
    }
  }

  /** Which registration a configured name comes from. */
  lemma RowOf(c: Callable, n: string) returns (i: int)
    requires n in Names
    ensures 0 <= i < |Registrations(c)| && Registrations(c)[i].name == n
  {
    RegistrationFacts(c);
    i :| 0 <= i < |Registrations(c)| && Registrations(c)[i].name == n;
  }

  /** One configured definition: a factory-built singleton with nothing cached, whose
      dependencies are registered and rank below it, and which can be built unless it is the
      configuration service and `getInstance` fails. */
  lemma ConfiguredDefinition(s: State, h: Config.Holder, env: Config.Env, n: string)
    requires Fresh(s) && n in Configure(s, h, env).services
    ensures var d := Configure(s, h, env).services[n];
      && d.singleton && d.factory.Some? && !Present(d.instance)
      && n in Rank && Below(Configure(s, h, env).services, Rank, Deps(d), Rank[n])
      && (forall j :: 0 <= j < |Deps(d)| ==> Deps(d)[j] in Configure(s, h, env).services)
      && (Buildable(d) <==> n != "ConfigService" || Config.GetInstance(h, env).0.Ok?)
  {
    var c := ConfigFactory(h, env);
    var regs := Registrations(c);
    var services := Configure(s, h, env).services;
    ConfiguredServices(s, h, env);
    RegistrationsOrdered(c);
    var i := RowOf(c, n);
    assert services[n] == Describe(regs[i].factory, regs[i].deps, true);
    assert Deps(services[n]) == regs[i].deps;
    assert Maker(services[n]) == regs[i].factory;
  }

  /** Every configured service is a singleton built by a factory, and the dependencies form
      an acyclic graph of registered names. All of them can be built exactly when
      `getInstance` succeeds. */
  lemma ConfigureWellFormed(s: State, h: Config.Holder, env: Config.Env)
    requires Fresh(s)
    ensures forall n :: n in Configure(s, h, env).services ==>
      Configure(s, h, env).services[n].singleton && Configure(s, h, env).services[n].factory.Some?
      && !Present(Configure(s, h, env).services[n].instance)
    ensures Ranked(Configure(s, h, env).services, Rank)
    ensures Complete(Configure(s, h, env).services) <==> Config.GetInstance(h, env).0.Ok?
  {
    var services := Configure(s, h, env).services;
    forall n | n in services
      ensures services[n].singleton && services[n].factory.Some? && !Present(services[n].instance)
      ensures n in Rank && Below(services, Rank, Deps(services[n]), Rank[n])
      ensures forall j :: 0 <= j < |Deps(services[n])| ==> Deps(services[n])[j] in services
      ensures Buildable(services[n]) <==> n != "ConfigService" || Config.GetInstance(h, env).0.Ok?
    {
      ConfiguredDefinition(s, h, env, n);
    }
    assert "ConfigService" in services;
  }

  /** Resolving a configured name, on a fresh container, throws the error of `getInstance`
      when that fails: every service depends, directly or through the clients, on the
      configuration service, and the first dependency resolved is always on that path. */
  lemma {:induction false} FailsWithConfig(s0: State, h: Config.Holder, env: Config.Env, n: string)
    requires Fresh(s0) && n in Names && Config.GetInstance(h, env).0.Err?
    ensures Ranked(Configure(s0, h, env).services, Rank)
    ensures Resolve(Configure(s0, h, env), n, Rank).result == Err(Thrown(Config.GetInstance(h, env).0.error))
    decreases if n in Rank then Rank[n] else 0
  {
    var c := ConfigFactory(h, env);
    var regs := Registrations(c);
    var s := Configure(s0, h, env);
    ConfigureWellFormed(s0, h, env);
    ConfiguredServices(s0, h, env);
    RegistrationsOrdered(c);
    var i := RowOf(c, n);
    assert s.services[n] == Describe(regs[i].factory, regs[i].deps, true);
    if n == "ConfigService" {
      assert Deps(s.services[n]) == [];
      assert ResolveAll(s, [], Rank, Rank[n]).result.Ok?;
      MakerThrows(s, n, Rank);
    } else {
      var dep := regs[i].deps[0];
      assert Deps(s.services[n])[0] == dep;
      FailsWithConfig(s0, h, env, dep);
      FirstDependencyThrows(s, n, Rank);
    }
  }

  /** Resolving any configured name succeeds exactly when `getInstance` does, and otherwise
      throws its error. On a first run, with the holder still empty, that means: exactly when
      the API key is set, and otherwise with the missing-key `ConfigurationError`. */
  lemma ResolveConfigured(s: State, h: Config.Holder, env: Config.Env, n: string)
    requires Fresh(s) && n in Names
    ensures Ranked(Configure(s, h, env).services, Rank)
    ensures Resolve(Configure(s, h, env), n, Rank).result.Ok? <==> Config.GetInstance(h, env).0.Ok?
    ensures Config.GetInstance(h, env).0.Err? ==>
      Resolve(Configure(s, h, env), n, Rank).result == Err(Thrown(Config.GetInstance(h, env).0.error))
    ensures h.instance.None? ==>
      (Resolve(Configure(s, h, env), n, Rank).result.Ok? <==> Config.IsSet(env, Config.ApiKeyVar))
    ensures h.instance.None? && !Config.IsSet(env, Config.ApiKeyVar) ==>
      Resolve(Configure(s, h, env), n, Rank).result
        == Err(Thrown(Errors.ConfigurationError(Config.MissingKeyMessage)))
  {
    ConfigureWellFormed(s, h, env);
    if Config.GetInstance(h, env).0.Err? {
      FailsWithConfig(s, h, env, n);
    }
  }

  /** Each repository depends on the TMDB client alone. */
  lemma RepositoryDeps(s: State, h: Config.Holder, env: Config.Env, n: string)
    requires Fresh(s) && n in Repositories
    ensures n in Configure(s, h, env).services && "TmdbHttpClient" in Configure(s, h, env).services
    ensures Deps(Configure(s, h, env).services[n]) == ["TmdbHttpClient"]
  {
    var c := ConfigFactory(h, env);
    ConfiguredServices(s, h, env);
    var i := RowOf(c, n);
    assert Registrations(c)[i].deps == ["TmdbHttpClient"];
  }

  /** Once the configuration loads, two repositories resolved one after the other are built
      on the identical TMDB client. */
  lemma RepositoriesShareClient(s0: State, h: Config.Holder, env: Config.Env, a: string, b: string)
    requires Fresh(s0) && a in Repositories && b in Repositories && a != b
    ensures Ranked(Configure(s0, h, env).services, Rank)
    ensures Config.GetInstance(h, env).0.Ok? ==>
      var s := Configure(s0, h, env);
      var r1 := Resolve(s, a, Rank); var r2 := Resolve(r1.state, b, Rank);
      && r1.result.Ok? && r2.result.Ok? && r1.result.value.Built? && r2.result.value.Built?
      && r1.result.value.args == r2.result.value.args
  {
    ConfigureWellFormed(s0, h, env);
    RepositoryDeps(s0, h, env, a);
    RepositoryDeps(s0, h, env, b);
    if Config.GetInstance(h, env).0.Ok? {
      SharedDependency(Configure(s0, h, env), a, b, "TmdbHttpClient", Rank);
    }
  }
}
