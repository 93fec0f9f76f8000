/** Configuration loading. The Node service and the browser service read the same nine
    settings from the environment in the same way; the environment is an input map from
    variable names to their text, and a variable that is not set is a missing key. */
module Config {
  import opened Wrappers
  import opened Strings
  import opened Js
  import opened Errors
  import AxiosClient
  import Entities

  type Env = map<string, string>

  /** The loaded settings. The four numeric settings are what `parseInt` produced, so they
      may be `NaN`. */
  datatype TmdbConfig = TmdbConfig(
    apiKey: string,
    baseUrl: string,
    imageBaseUrl: string,
    defaultLanguage: string,
    defaultRegion: string,
    defaultPageSize: Value,
    timeout: Value,
    retryAttempts: Value,
    retryDelay: Value)

  const ApiKeyVar := "TMDB_API_KEY"
  const MissingKeyMessage := "TMDB_API_KEY is required. Please set it in your .env file."

  const DefaultBaseUrl := "https://api.themoviedb.org/3"
  const DefaultImageBaseUrl := "https://image.tmdb.org/t/p/"
  const DefaultLanguage := "en-US"
  const DefaultRegion := "US"
  const DefaultPageSize := 20
  const DefaultTimeout := 10000
  const DefaultRetryAttempts := 3
  const DefaultRetryDelay := 1000

  /** A variable that is set to a non-empty text: JavaScript truthiness of `process.env[name]`. */
  predicate IsSet(env: Env, name: string) {
    name in env && env[name] != ""
  }

  /** `process.env[name] || fallback`. */
  function EnvOr(env: Env, name: string, fallback: string): (v: string)
    ensures IsSet(env, name) ==> v == env[name]
    ensures !IsSet(env, name) ==> v == fallback
  {
    if IsSet(env, name) then env[name] else fallback
  }

  /** The number `parseInt(text, 10)` yields: `NaN` when no digits can be read. */
  function ParseNumber(text: string): (v: Value)
    ensures v.Num? || v.NaN?
  {
    match ParseInt(text)
    case Some(n) => Num(n)
    case None => NaN
  }

  /** A numeric setting: the number `parseInt` reads from the variable, or the default when
      the variable is unset or empty. */
  function EnvNumber(env: Env, name: string, fallback: int): (v: Value)
    ensures !IsSet(env, name) ==> v == Num(fallback)
  {
    if IsSet(env, name) then ParseNumber(env[name]) else Num(fallback)
  }

  /** The code parses the default's decimal text rather than using the number: both give the
      same setting, `parseInt(process.env[name] || String(fallback), 10)`. */
  lemma EnvNumberParsesFallback(env: Env, name: string, fallback: int)
    ensures EnvNumber(env, name, fallback) == ParseNumber(EnvOr(env, name, IntToString(fallback)))
  {
    ParseIntOfIntToString(fallback);
  }

  /** `loadConfig`: a missing or empty API key is a `ConfigurationError`; every other setting
      falls back to its default when unset or empty. */
  function LoadConfig(env: Env): (r: Result<TmdbConfig, Error>)
    ensures r.Err? <==> !IsSet(env, ApiKeyVar)
    ensures r.Err? ==> r.error == ConfigurationError(MissingKeyMessage)
    ensures r.Ok? ==> r.value.apiKey == env[ApiKeyVar] && r.value.apiKey != ""
  {
    if !IsSet(env, ApiKeyVar) then Err(NewConfigurationError(MissingKeyMessage))
    else Ok(TmdbConfig(
      env[ApiKeyVar],
      EnvOr(env, "TMDB_BASE_URL", DefaultBaseUrl),
      EnvOr(env, "TMDB_IMAGE_BASE_URL", DefaultImageBaseUrl),
      EnvOr(env, "DEFAULT_LANGUAGE", DefaultLanguage),
      EnvOr(env, "DEFAULT_REGION", DefaultRegion),
      EnvNumber(env, "DEFAULT_PAGE_SIZE", DefaultPageSize),
      EnvNumber(env, "API_TIMEOUT", DefaultTimeout),
      EnvNumber(env, "RETRY_ATTEMPTS", DefaultRetryAttempts),
      EnvNumber(env, "RETRY_DELAY", DefaultRetryDelay)))
  }

  /** With only the API key set, every setting takes its documented default. */
  lemma KeyOnlyDefaults(key: string)
    requires key != ""
    ensures LoadConfig(map[ApiKeyVar := key]) == Ok(TmdbConfig(
      key, "https://api.themoviedb.org/3", "https://image.tmdb.org/t/p/", "en-US", "US",
      Num(20), Num(10000), Num(3), Num(1000)))
  {
    var env := map[ApiKeyVar := key];
    assert forall n :: n != ApiKeyVar ==> !IsSet(env, n);
    assert |ApiKeyVar| == 12;
  }

  /** Two environments that agree on which variables are set, and on the text of those,
      load the same settings. */
  lemma SameSettings(e1: Env, e2: Env)
    requires forall n :: IsSet(e2, n) ==> IsSet(e1, n)
    requires forall n :: IsSet(e1, n) ==> IsSet(e2, n) && e1[n] == e2[n]
    ensures LoadConfig(e1) == LoadConfig(e2)
  {
    if IsSet(e1, ApiKeyVar) {
      var c1, c2 := LoadConfig(e1).value, LoadConfig(e2).value;
      assert c1.baseUrl == c2.baseUrl && c1.imageBaseUrl == c2.imageBaseUrl;
      assert c1.defaultLanguage == c2.defaultLanguage && c1.defaultRegion == c2.defaultRegion;
      assert c1.defaultPageSize == c2.defaultPageSize && c1.timeout == c2.timeout;
      assert c1.retryAttempts == c2.retryAttempts && c1.retryDelay == c2.retryDelay;
    }
  }

  /** An unset or empty variable and a missing one load the same settings: the code cannot
      tell them apart. */
  lemma EmptyIsUnset(env: Env, name: string)
    ensures LoadConfig(env[name := ""]) == LoadConfig(env - {name})
  {
    var e1, e2 := env[name := ""], env - {name};
    assert forall n :: IsSet(e2, n) ==> IsSet(e1, n);
    assert forall n :: IsSet(e1, n) ==> IsSet(e2, n) && e1[n] == e2[n];
    SameSettings(e1, e2);
  }

  /** A non-empty base URL is taken verbatim. */
  lemma BaseUrlFromEnv(env: Env)
    requires IsSet(env, ApiKeyVar) && IsSet(env, "TMDB_BASE_URL")
    ensures LoadConfig(env).value.baseUrl == env["TMDB_BASE_URL"]
  {
  }

  /** A timeout written in decimal is read back as that number. */
  lemma TimeoutFromEnv(env: Env, timeout: int)
    requires IsSet(env, ApiKeyVar) && IsSet(env, "API_TIMEOUT") && env["API_TIMEOUT"] == IntToString(timeout)
    ensures LoadConfig(env).value.timeout == Num(timeout)
  {
    ParseIntOfIntToString(timeout);
  }

  /** A numeric setting that holds no digits loads as `NaN`, not as its default. */
  lemma GarbageNumberIsNaN(env: Env)
    requires IsSet(env, ApiKeyVar)
    ensures LoadConfig(env["RETRY_ATTEMPTS" := "many"]).value.retryAttempts == NaN
  {
    var t := "many";
    assert SkipWhite(t, 0) == 0 by {
      assert !IsWhite(t[0]);
    }
    assert DigitPrefix(t) == "";
  }

  /** `getFullImageUrl(path, size = 'w500')`: no URL for a `null` or empty path, else the
      configured image base, the size and the path. */
  function FullImageUrl(c: TmdbConfig, path: Option<string>, size: Option<string>): (url: Option<string>)
    ensures url.None? <==> path.None? || path.value == ""
  {
    if path.None? || path.value == "" then None
    else Some(c.imageBaseUrl + size.GetOr("w500") + path.value)
  }

  /** The path can be read back from an image URL once the base and the size are known. */
  lemma FullImageUrlPath(c: TmdbConfig, path: string, size: Option<string>)
    requires path != ""
    ensures var pre := c.imageBaseUrl + size.GetOr("w500");
      var url := FullImageUrl(c, Some(path), size).value;
      |pre| <= |url| && url[..|pre|] == pre && url[|pre|..] == path
  {
    var pre := c.imageBaseUrl + size.GetOr("w500");
    var url := FullImageUrl(c, Some(path), size).value;
    assert url == pre + path;
  }

  /** With the default image base, the service builds the same URL as the entities' own
      getters do for a string path. */
  lemma DefaultImageUrlAgrees(key: string, path: string, size: string)
    requires key != ""
    ensures FullImageUrl(LoadConfig(map[ApiKeyVar := key]).value, Some(path), Some(size))
         == Entities.ImageUrl(Str(path), size)
  {
    KeyOnlyDefaults(key);
  }

  /** The class-level holder of `getInstance`: empty until a construction succeeds. */
  datatype Holder = Holder(instance: Option<TmdbConfig>)

  /** `getInstance()`: the first successful call loads the settings and stores them; any later
      call returns the stored settings without reading the environment again. A failing
      construction throws and leaves the holder empty. */
  function GetInstance(h: Holder, env: Env): (out: (Result<TmdbConfig, Error>, Holder))
    ensures h.instance.Some? ==> out == (Ok(h.instance.value), h)
    ensures h.instance.None? ==> out.0 == LoadConfig(env)
    ensures out.0.Ok? ==> out.1 == Holder(Some(out.0.value))
    ensures out.0.Err? ==> out.1 == h
  {
    if h.instance.Some? then (Ok(h.instance.value), h)
    else
      var r := LoadConfig(env);
      if r.Ok? then (r, Holder(Some(r.value))) else (r, h)
  }

  /** Once one call has succeeded, every later call, whatever the environment has become,
      returns that same instance and leaves the holder as it is. */
  lemma GetInstanceStable(h: Holder, env1: Env, env2: Env)
    requires GetInstance(h, env1).0.Ok?
    ensures var (r1, h1) := GetInstance(h, env1);
      GetInstance(h1, env2) == (r1, h1)
  {
  }

  /** A failed first call changes nothing, so a retry with the key now set succeeds. */
  lemma GetInstanceRetries(env1: Env, env2: Env)
    requires !IsSet(env1, ApiKeyVar) && IsSet(env2, ApiKeyVar)
    ensures var (r1, h1) := GetInstance(Holder(None), env1);
      r1 == Err(ConfigurationError(MissingKeyMessage)) && h1 == Holder(None)
      && GetInstance(h1, env2).0 == LoadConfig(env2) && GetInstance(h1, env2).0.Ok?
  {
  }

  /** The settings the configuration hands to the generic HTTP client: the base URL, the
      timeout and JSON content headers. */
  function ClientSettings(c: TmdbConfig): (s: HttpClientConfig)
    ensures s.baseURL == Some(c.baseUrl) && s.timeout == c.timeout
    ensures s.headers == Some(AxiosClient.JsonHeaders)
  {
    HttpClientConfig(Some(c.baseUrl), c.timeout, Some(AxiosClient.JsonHeaders))
  }

  /** The client instance the wiring builds talks to the configured base URL, sends JSON
      headers, and uses the configured timeout unless it is `0` or `NaN`, when the client's
      own 10000 ms applies. */
  lemma ConfiguredClient(env: Env)
    requires IsSet(env, ApiKeyVar)
    ensures var c := LoadConfig(env).value;
      var inst := AxiosClient.CreateInstance(ClientSettings(c));
      inst.baseURL == Some(EnvOr(env, "TMDB_BASE_URL", DefaultBaseUrl))
      && inst.headers == AxiosClient.JsonHeaders
      && (!IsSet(env, "API_TIMEOUT") ==> inst.timeout == Num(10000))
      && (IsSet(env, "API_TIMEOUT") && ParseInt(env["API_TIMEOUT"]) == Some(0) ==> inst.timeout == Num(10000))
      && (IsSet(env, "API_TIMEOUT") && ParseInt(env["API_TIMEOUT"]).None? ==> inst.timeout == Num(10000))
      && ((IsSet(env, "API_TIMEOUT") && ParseInt(env["API_TIMEOUT"]).Some? && ParseInt(env["API_TIMEOUT"]).value != 0)
          ==> inst.timeout == Num(ParseInt(env["API_TIMEOUT"]).value))
  {
    var c := LoadConfig(env).value;
    var inst := AxiosClient.CreateInstance(ClientSettings(c));
    assert inst.headers.Keys == AxiosClient.JsonHeaders.Keys;
  }
}
