# TMDB client core, modelled in Dafny

This project models the deterministic core of a TypeScript client for The Movie Database
(TMDB) API. Movies, TV shows and people are searched through repositories. The
repositories build typed parameter records and turn them into query strings. They send
those strings through an HTTP client that translates every failure into a small error
taxonomy. Raw snake_case responses are mapped into entities. All of this is wired together
by a hand-written dependency-injection container.

The model is functional. Raw JSON is the `Js.Value` datatype, whose `Undefined` stands for
a missing property. Query parameters are an ordered list of keys and values. Errors form
one sum type. Every call is a pure function from its inputs: the environment map, the
transport's answer, the date taken as "today", and the container state.

Modules follow the source tree:

- `Errors`, `Filters`, `Entities` and `Dates` model the domain.
- `AxiosClient`, `TmdbClient`, `LegacyClient` and `Query` model the HTTP layer.
- `Config`, `Container` and `DiConfiguration` model configuration and wiring.
- `Repository` is shared by `MovieRepository`, `TvShowRepository`, `PersonRepository` and
  `SearchRepository`.
- `SearchService` and `UseCases` model delegation.
- `Formatter`, `InteractiveMenu`, `SearchHook` and `SearchPage` model the pure parts of the
  three front ends.

Two behaviours of the code are easy to miss. The model follows the code in both.

- `Movie.create` copies `vote_average` and `vote_count` from the response without a default
  (src/domain/entities/movie.ts:27-33), so a missing field stays undefined.
- The TV and person repositories return TMDB's response body unchanged rather than mapping
  it into entities (src/infrastructure/repositories/tmdb/tvShowRepository.ts:72-75,
  src/infrastructure/repositories/tmdb/personRepository.ts:58-74).

## Model

| member | source | states |
|---|---|---|
| Errors.NameIdentifiesClass | src/domain/value-objects/errors.ts:1-38 | Every error class sets its own `name`, and no two classes share one, so the name identifies the class. |
| Errors.NewApiError | src/domain/value-objects/errors.ts:1-10 | An `ApiError` carries exactly the status code and message it was given, and no details. |
| Errors.NewRateLimitError | src/domain/value-objects/errors.ts:26-31 | A rate-limit error keeps a given message and otherwise says "Rate limit exceeded". |
| Errors.NewNotFoundError | src/domain/value-objects/errors.ts:19-24 | A not-found error's message names the resource, and names the id when one is given. |
| Errors.NotFoundMessageNamesId | src/domain/value-objects/errors.ts:19-24 | For one resource, two different non-zero numeric ids give different messages. |
| Errors.NotFoundFalsyId | src/domain/value-objects/errors.ts:21 | An id of 0, "" or undefined is left out of the message, as if no id were given. A truthy id such as 7 appears as "with id 7". |
| Errors.NewValidationError | src/domain/value-objects/errors.ts:12-17 | A validation error keeps its message and the optional field name. |
| Errors.NewConfigurationError | src/domain/value-objects/errors.ts:33-38 | A configuration error keeps its message and is named ConfigurationError. |
| AxiosClient.CreateInstance | src/infrastructure/http/base/axiosHttpClient.ts:15-24 | The base URL is passed on. The timeout is 10000 unless a truthy one is given. The headers are the JSON defaults overridden key by key by the caller's headers. |
| AxiosClient.ErrorMessage | src/infrastructure/http/base/axiosHttpClient.ts:54 | An error response's message is the body's `status_message`, else the status text, else "An error occurred". |
| AxiosClient.HandleError | src/infrastructure/http/base/axiosHttpClient.ts:50-68 | An error response keeps its status and response. A request with no response becomes a status-0 network error. A setup failure becomes a status-0 "Request setup error: " plus its message. |
| AxiosClient.Request | src/infrastructure/http/base/axiosHttpClient.ts:70-90 | A request succeeds exactly when the transport answers. It copies data, status, status text and headers. Every failure is translated by the error handler. |
| AxiosClient.VerbRequests | src/infrastructure/http/base/axiosHttpClient.ts:92-125 | get, post, put and delete use GET, POST, PUT and DELETE. Only get carries params and only post and put carry a body. Every verb keeps the URL and headers. |
| AxiosClient.GetReturnsBody | src/infrastructure/http/base/axiosHttpClient.ts:70-99 | When the transport answers a get, the result is the transport's own response. |
| TmdbClient.DefaultParams | src/infrastructure/http/tmdb/httpClient.ts:62-65 | The defaults are exactly `api_key` and then `language`. |
| TmdbClient.QueryEntries | src/infrastructure/http/tmdb/httpClient.ts:59-81 | The entry a key gets in the query (see below). |
| TmdbClient.QueryDistinct | src/infrastructure/http/tmdb/httpClient.ts:67-79 | A caller key never adds a second entry for a default key, so the query's keys stay distinct. |
| TmdbClient.BuildUrl | src/infrastructure/http/tmdb/httpClient.ts:59-82 | The URL is the endpoint, one `?`, and the encoded query of the defaults merged with the caller's parameters, even when that query is empty. |
| TmdbClient.UrlDeterminesRequest | src/infrastructure/http/tmdb/httpClient.ts:81 | Under an injective encoder, equal URLs `endpoint?query` come from equal endpoints and equal queries. |
| TmdbClient.FalsyValuesKept | src/infrastructure/http/tmdb/httpClient.ts:70-79 | `false` and `0` are sent as "false" and "0", and an array becomes one comma-joined entry. Undefined and null are dropped. |
| TmdbClient.HandleTmdbError | src/infrastructure/http/tmdb/httpClient.ts:87-106 | How a failure is translated (see below). |
| TmdbClient.NoResponseIsNetworkError | src/infrastructure/http/tmdb/httpClient.ts:101-102 | A request without a response ends as `ApiError(0, "Network error: Unable to connect to TMDB API")` after both translation stages. |
| TmdbClient.SetupFailureTranslation | src/infrastructure/http/tmdb/httpClient.ts:101-105 | A setup failure ends as the TMDB network error when its message mentions "Network error". Otherwise it ends as `ApiError(0, "Request setup error: " + message)`. |
| TmdbClient.RejectedTranslation | src/infrastructure/http/tmdb/httpClient.ts:88-100 | An error response with status 401 becomes the fixed unauthorized error and 429 becomes a rate-limit error. Any unlisted status stays an ApiError with that status. |
| TmdbClient.Get | src/infrastructure/http/tmdb/httpClient.ts:21-35 | A get returns the response body unchanged when the transport answers, and the translated error otherwise. Parameters travel only in the URL. |
| TmdbClient.Post | src/infrastructure/http/tmdb/httpClient.ts:40-54 | A post sends its body as is and returns the response body or the translated error. |
| TmdbClient.GetErrorsAreTranslated | src/infrastructure/http/tmdb/httpClient.ts:32-34 | A failed get always throws an ApiError or a RateLimitError, never a raw HTTP error. |
| Query.SpreadFind | src/infrastructure/http/tmdb/httpClient.ts:67 | In `{...a, ...b}` a key takes its value from `b` when `b` has it and from `a` otherwise. |
| Query.SpreadKeys | src/infrastructure/http/tmdb/httpClient.ts:67 | A spread of two records with distinct keys has distinct keys: exactly those of either record. |
| Query.SearchEntriesFind | src/infrastructure/http/tmdb/httpClient.ts:70-79 | Each parameter becomes at most one query entry: its value's text, or nothing for undefined and null. |
| Query.RenderInjective | src/infrastructure/http/tmdb/httpClient.ts:81 | Under an encoder that never emits `&` or `=`, different entry lists render to different query strings. |
| Query.WithQueryInjective | src/infrastructure/http/tmdb/httpClient.ts:81 | Endpoint and query can be read back from `endpoint?query` when the endpoint has no `?`. |
| LegacyClient.QueryEntries | src/infrastructure/http/httpClient.ts:115-135 | The legacy URL adds only a default `language`, with no `api_key`. Caller values replace it and undefined or null values drop it. |
| LegacyClient.QueryDistinct | src/infrastructure/http/httpClient.ts:120-132 | The legacy query never repeats a key. |
| LegacyClient.BuildUrl | src/infrastructure/http/httpClient.ts:115-135 | The legacy URL is the endpoint, one `?`, and the encoded query of the default language merged with the caller's parameters. |
| LegacyClient.UrlDeterminesRequest | src/infrastructure/http/httpClient.ts:134 | Under an injective encoder, equal legacy URLs come from equal endpoints and equal queries. |
| LegacyClient.HandleError | src/infrastructure/http/httpClient.ts:55-76 | The legacy client translates in a single stage. 401, 404 and 500 become ApiErrors with the fixed messages "Unauthorized: Invalid API key", "Resource not found" and "Internal server error". 429 becomes a RateLimitError "Rate limit exceeded. Please try again later.". Any other status keeps its number with the body message. A missing response is the TMDB network error, and a setup failure is "Request setup error: " and its message. |
| LegacyClient.BodyMessage | src/infrastructure/http/httpClient.ts:69 | The legacy message is the body's `status_message`, else "An error occurred". It never falls back to the status text. |
| LegacyClient.PipelinesAgree | src/infrastructure/http/httpClient.ts:55-76 | The legacy handler and the two-stage TMDB pipeline give the same error whenever the status text is not consulted and no setup message mentions a network error. |
| LegacyClient.StatusTextDiffers | src/infrastructure/http/httpClient.ts:68-69 | For an unlisted status with a status text but no `status_message`, the two pipelines disagree. |
| LegacyClient.Send | src/infrastructure/http/httpClient.ts:78-112 | Every legacy verb returns only the response body, or the translated error. |
| LegacyClient.Get | src/infrastructure/http/httpClient.ts:78-85 | A legacy get sends a GET for the URL with the parameters as axios `params` and no body. It returns the answer's body, or the handler's error for the failure. |
| LegacyClient.Post | src/infrastructure/http/httpClient.ts:87-94 | A legacy post sends the data as the body, with no parameters. It returns the answer's body or the handler's error. |
| LegacyClient.Put | src/infrastructure/http/httpClient.ts:96-103 | A legacy put sends the data as the body, with no parameters. It returns the answer's body or the handler's error. |
| LegacyClient.Delete | src/infrastructure/http/httpClient.ts:105-112 | A legacy delete sends neither parameters nor body. It returns the answer's body or the handler's error. |
| Config.EnvOr | src/infrastructure/config/configService.ts:41-44 | A setting takes the environment's value when it is set and non-empty, and the default otherwise. |
| Config.ParseNumber | src/infrastructure/config/configService.ts:45-48 | `parseInt` of a setting gives a number or NaN. |
| Config.EnvNumberParsesFallback | src/infrastructure/config/configService.ts:45-48 | A numeric setting is the parse of the environment value, or of the printed default when unset. |
| Config.LoadConfig | src/infrastructure/config/configService.ts:33-50 | Loading fails with the ConfigurationError exactly when `TMDB_API_KEY` is missing or empty. Otherwise the key is kept as given. |
| Config.KeyOnlyDefaults | src/infrastructure/config/browserConfigService.ts:23-41 | With only a key set, every other setting takes its default. The defaults are the TMDB base URL, the image base URL, en-US, US, 20, 10000, 3 and 1000. |
| Config.SameSettings | src/infrastructure/config/configService.ts:33-50 | Two environments that agree on every non-empty variable load the same configuration. |
| Config.EmptyIsUnset | src/infrastructure/config/configService.ts:41-48 | Setting a variable to "" loads the same configuration as removing it. |
| Config.BaseUrlFromEnv | src/infrastructure/config/configService.ts:41 | A non-empty `TMDB_BASE_URL` is used as given. |
| Config.TimeoutFromEnv | src/infrastructure/config/configService.ts:46 | A printed integer in `API_TIMEOUT` reads back as that timeout. |
| Config.GarbageNumberIsNaN | src/infrastructure/config/configService.ts:47 | A non-numeric `RETRY_ATTEMPTS` loads as NaN and does not fail. |
| Config.FullImageUrl | src/infrastructure/config/configService.ts:68-71 | An image URL is null exactly for a null or empty path. |
| Config.FullImageUrlPath | src/infrastructure/config/configService.ts:68-71 | An image URL is the image base plus the size (default w500) plus the path, and the path can be read back. |
| Config.DefaultImageUrlAgrees | src/infrastructure/config/configService.ts:68-71 | With the default image base, the configuration's image URL equals the one the entities build. |
| Config.GetInstance | src/infrastructure/config/configService.ts:26-31 | The first successful call stores the loaded configuration and later calls return it. A failed load stores nothing. |
| Config.GetInstanceStable | src/infrastructure/config/configService.ts:26-31 | Once loaded, the instance is returned unchanged whatever the environment later holds. |
| Config.GetInstanceRetries | src/infrastructure/config/configService.ts:22-31 | A load that throws for a missing key leaves nothing stored, so a later call with a key succeeds. |
| Config.ClientSettings | src/infrastructure/di/diConfiguration.ts:31-38 | The HTTP client is configured with the configuration's base URL, its timeout and the JSON headers. |
| Config.ConfiguredClient | src/infrastructure/di/diConfiguration.ts:24-41 | The wired client uses `TMDB_BASE_URL` or the default. Its timeout is 10000 when `API_TIMEOUT` is unset, 0 or unparsable, and the parsed value otherwise. |
| Container.Register | src/infrastructure/di/container.ts:29-34 | Registering sets one definition, keeps all others and leaves the cache alone. |
| Container.Describe | src/infrastructure/di/container.ts:44-53 | The definition `singleton` and `transient` register: a callable with a prototype becomes the constructor and one without the factory, so exactly one is set and it builds with that callable. The dependencies are kept, the lifetime is the one given, and no instance is stored. |
| Container.Singleton | src/infrastructure/di/container.ts:39-54 | `singleton` registers the name as a singleton built by the given callable from the given dependencies, with nothing stored. Every other definition and the cache are unchanged. |
| Container.Transient | src/infrastructure/di/container.ts:59-74 | `transient` registers the same, but not as a singleton. |
| Container.Instance | src/infrastructure/di/container.ts:79-84 | `instance` registers a singleton holding the value, which counts as present exactly when it is truthy. It has no dependencies and no factory, and its constructor is the inherited `Object`. Every other definition and the cache are unchanged. |
| Container.Clear | src/infrastructure/di/container.ts:141-144 | After `clear` no name is registered and nothing is cached. |
| Container.HasAfterRegister | src/infrastructure/di/container.ts:134-136 | `has` is true exactly for the names registered so far. |
| Container.Resolve | src/infrastructure/di/container.ts:89-129 | How a name is resolved (see below). |
| Container.ResolveAll | src/infrastructure/di/container.ts:107 | Dependencies are resolved in order, one result each. Resolution succeeds when every definition can be built. |
| Container.NotRegisteredMessageInjective | src/infrastructure/di/container.ts:92-94 | The "is not registered" message names the service it failed on. |
| Container.ResolveCleared | src/infrastructure/di/container.ts:141-144 | After `clear`, every resolve fails with "not registered" and changes nothing. |
| Container.SingletonOnce | src/infrastructure/di/container.ts:96-126 | Resolving a singleton again returns the identical object and changes no state, so its factory does not run again. |
| Container.TransientFresh | src/infrastructure/di/container.ts:109-128 | Two resolutions of a transient give different objects. |
| Container.InstanceAsIs | src/infrastructure/di/container.ts:101-104 | A truthy value registered with `instance` is returned as is, with nothing built or cached. |
| Container.FalsyInstanceBuildsObject | src/infrastructure/di/container.ts:79-121 | A falsy registered value falls through to the inherited `Object` constructor. The name resolves to a new empty object, which is cached. |
| Container.CacheSurvivesReregistration | src/infrastructure/di/container.ts:97-98 | A new singleton definition for a cached name still resolves to the old cached instance. |
| Container.BuiltBy | src/infrastructure/di/container.ts:39-74 | A service registered through `singleton` or `transient` is built by the callable it was registered with. A callable with a prototype is used as the constructor and one without as the factory. |
| Container.CachedDeps | src/infrastructure/di/container.ts:107 | Dependencies that are already cached singletons are passed as those very instances, and the state does not change. |
| Container.SingleDependency | src/infrastructure/di/container.ts:106-118 | A service with one dependency is built from exactly what resolving that dependency gives. |
| Container.MakerThrows | src/infrastructure/di/container.ts:107-114 | A factory that throws after the dependencies resolve makes `resolve` throw that very error, and the name is not cached. |
| Container.FirstDependencyThrows | src/infrastructure/di/container.ts:107 | When the first dependency throws, the service throws the same error and is not built. |
| Container.SharedDependency | src/infrastructure/di/container.ts:96-126 | Two services that depend on the same singleton receive the same instance of it. |
| DiConfiguration.RegistrationsOrdered | src/infrastructure/di/diConfiguration.ts:19-95 | Every declared dependency is one of the configured names and ranks below its dependent, so the dependency graph has no cycle. |
| DiConfiguration.Configure | src/infrastructure/di/diConfiguration.ts:17-96 | `configure` adds exactly the seven names to the container. Every other registration, the cache and the identity counter are left as they were, so on an empty container it registers exactly the seven names and caches nothing. |
| DiConfiguration.RegisterAllKeepsOthers | src/infrastructure/di/container.ts:29-34 | Registering a list of names leaves the definition of every other name unchanged. |
| DiConfiguration.ConfiguredServices | src/infrastructure/di/diConfiguration.ts:19-95 | Each name is registered as a singleton built by its factory with its listed dependencies. |
| DiConfiguration.ConfiguredDefinition | src/infrastructure/di/diConfiguration.ts:17-96 | Each configured name holds a factory-built singleton with nothing cached, whose dependencies are registered and rank below it. It can be built unless it is the configuration service and `getInstance` throws. |
| DiConfiguration.ConfigureWellFormed | src/infrastructure/di/diConfiguration.ts:17-96 | Every configured definition is a singleton with a factory, and the dependency graph is acyclic. All definitions can be built exactly when `getInstance` succeeds. |
| DiConfiguration.FailsWithConfig | src/infrastructure/di/diConfiguration.ts:19-95 | When `getInstance` throws, resolving any configured name throws that same error, since every service depends on the configuration service. |
| DiConfiguration.ResolveConfigured | src/infrastructure/di/diConfiguration.ts:17-96 | A configured name resolves exactly when `getInstance` succeeds, and otherwise throws its error. On a first run this means exactly when the API key is set; without it, resolution throws the missing-key `ConfigurationError`. |
| DiConfiguration.RepositoryDeps | src/infrastructure/di/diConfiguration.ts:57-95 | Each repository depends on the TMDB client alone. |
| DiConfiguration.RepositoriesShareClient | src/infrastructure/di/diConfiguration.ts:44-95 | Once the configuration loads, two repositories resolved one after the other are built from the same TMDB client instance. |
| Filters.ParseSortBy | src/domain/value-objects/searchFilters.ts:77-92 | Reading a movie sort code gives the sort whose code it is. |
| Filters.SortByRoundTrip | src/domain/value-objects/searchFilters.ts:77-92 | Every movie sort is read back from its code. |
| Filters.SortByCodesDistinct | src/domain/value-objects/searchFilters.ts:77-92 | No two movie sorts share a code. |
| Filters.SortByShape | src/domain/value-objects/searchFilters.ts:77-92 | Every movie sort code is one of the seven fields followed by `.asc` or `.desc`. |
| Filters.SortByOfParts | src/domain/value-objects/searchFilters.ts:77-92 | Every field in both directions is some movie sort, so both directions exist for every field. |
| Filters.SortByCodeParts | src/domain/value-objects/searchFilters.ts:77-92 | A movie sort's code is its field, a point and its direction. |
| Filters.ParseTvSortBy | src/domain/value-objects/searchFilters.ts:94-101 | Reading a TV sort code gives the sort whose code it is. |
| Filters.TvSortByRoundTrip | src/domain/value-objects/searchFilters.ts:94-101 | Every TV sort is read back from its code. |
| Filters.TvSortByOfParts | src/domain/value-objects/searchFilters.ts:94-101 | vote_average, first_air_date and popularity each have a TV sort in both directions. |
| Filters.TvSortByExactly | src/domain/value-objects/searchFilters.ts:94-101 | A code is a TV sort exactly when it is one of those three fields with `.asc` or `.desc`. |
| Filters.MovieSortOf | src/domain/value-objects/searchFilters.ts:77-101 | A TV sort's code is a movie sort code exactly when the movie enumeration has that field. |
| Filters.ReleaseTypeCode | src/domain/value-objects/searchFilters.ts:103-110 | Release-type codes lie in 1..6. |
| Filters.ReleaseTypeOf | src/domain/value-objects/searchFilters.ts:103-110 | Each of 1..6, and nothing else, is the code of a release type. |
| Filters.ReleaseTypeRoundTrip | src/domain/value-objects/searchFilters.ts:103-110 | Every release type is read back from its code, so the codes are distinct. |
| Filters.ParseMonetization | src/domain/value-objects/searchFilters.ts:112-118 | Reading a monetization code gives the type whose code it is. |
| Filters.MonetizationRoundTrip | src/domain/value-objects/searchFilters.ts:112-118 | Every monetization type is read back from its code. |
| Filters.TvStatusCode | src/domain/value-objects/searchFilters.ts:120-127 | TV status codes lie in 0..5. |
| Filters.TvStatusOf | src/domain/value-objects/searchFilters.ts:120-127 | Each of 0..5, and nothing else, is a TV status code. |
| Filters.TvStatusRoundTrip | src/domain/value-objects/searchFilters.ts:120-127 | Every TV status is read back from its code. |
| Filters.TvTypeCode | src/domain/value-objects/searchFilters.ts:129-137 | TV type codes lie in 0..6. |
| Filters.TvTypeOf | src/domain/value-objects/searchFilters.ts:129-137 | Each of 0..6, and nothing else, is a TV type code. |
| Filters.TvTypeRoundTrip | src/domain/value-objects/searchFilters.ts:129-137 | Every TV type is read back from its code. |
| Filters.ParseTimeWindow | src/domain/value-objects/searchFilters.ts:139-142 | Exactly "day" and "week" are time windows. |
| Filters.TimeWindowRoundTrip | src/domain/value-objects/searchFilters.ts:139-142 | Every time window is read back from its code. |
| Filters.ParseMediaType | src/domain/value-objects/searchFilters.ts:144-149 | Exactly "all", "movie", "tv" and "person" are media types. |
| Filters.MediaTypeRoundTrip | src/domain/value-objects/searchFilters.ts:144-149 | Every media type is read back from its code. |
| Filters.ReleaseTypesValue | src/domain/value-objects/searchFilters.ts:23 | A list of release types is an array of their numeric codes, in order. |
| Filters.MonetizationsValue | src/domain/value-objects/searchFilters.ts:42 | A list of monetization types is an array of their string codes, in order. |
| Entities.Prop | src/domain/entities/movie.ts:19-21 | Reading a property of null or undefined throws a TypeError. Otherwise it gives the property or undefined. |
| Entities.DateField | src/domain/entities/movie.ts:19 | How a raw date field is read (see below). |
| Entities.DateFieldOfRaw | src/domain/entities/tvShow.ts:25 | Printing a date and reading it back gives the same date. An absent date is written as "". |
| Entities.ImageUrl | src/domain/entities/movie.ts:37-49 | An image URL is null exactly for a falsy path. Otherwise it begins with the fixed TMDB image prefix. |
| Entities.ImagePathOfUrl | src/domain/entities/movie.ts:37-42 | After the prefix and size, an image URL is exactly the path. |
| Entities.CreateMovie | src/domain/entities/movie.ts:18-35 | How a raw record becomes a Movie (see below). |
| Entities.CreateMovieOfRaw | src/domain/entities/movie.ts:18-35 | Writing a movie as a raw record and creating it again gives the same movie. |
| Entities.SizedImageUrl | src/domain/entities/movie.ts:37-49 | An entity has an image URL exactly when its path is truthy. The URL is the image prefix, the requested size (w500 by default for posters and profiles, w780 for backdrops) and the path, which reads back out of it. TV shows (tvShow.ts:38-50) and people (person.ts:38-43) use the same getters. |
| Entities.ReleaseYear | src/domain/entities/movie.ts:51-53 | A movie's year text is "N/A" exactly without a release date and "NaN" exactly for an invalid one. For a calendar date it reads back, through `parseInt`, as the date's year. |
| Entities.FirstAirYear | src/domain/entities/tvShow.ts:52-54 | A show's year text is "N/A" exactly without a first air date and "NaN" exactly for an invalid one. For a calendar date it reads back, through `parseInt`, as the date's year. |
| Entities.CreateMovieDetails | src/domain/entities/movie.ts:83-104 | Details fail exactly when the movie fails. They carry the movie plus the raw runtime and genres. |
| Entities.FormattedRuntime | src/domain/entities/movie.ts:106-113 | A null runtime, and only that, gives "N/A". A non-negative runtime gives "`h`h `m`m" with 60·h + m equal to the runtime and 0 ≤ m < 60. |
| Entities.RuntimeTextInjective | src/domain/entities/movie.ts:106-113 | Different non-negative runtimes format differently. |
| Entities.GenreNames | src/domain/entities/movie.ts:115-117 | Genre names throw unless the genres are an array. |
| Entities.GenreNameValues | src/domain/entities/movie.ts:116 | Genre names are read one per genre, in order. The read throws exactly when some genre is null or undefined. |
| Entities.GenreNamesOfRecords | src/domain/entities/tvShow.ts:133-135 | Genre records named n1…nk give "n1, …, nk". |
| Entities.CreateTvShow | src/domain/entities/tvShow.ts:19-36 | How a raw record becomes a TvShow (see below). |
| Entities.CreateTvShowOfRaw | src/domain/entities/tvShow.ts:19-36 | Writing a TV show as a raw record and creating it again gives the same show. |
| Entities.CreateTvShowDetails | src/domain/entities/tvShow.ts:94-124 | TV details default their five list fields to [] and read `last_air_date` like the first air date. |
| Entities.EpisodeRunTimeText | src/domain/entities/tvShow.ts:126-131 | A missing or empty list of run times gives "N/A". A non-empty one gives the values joined with ", " and then " minutes". |
| Entities.EpisodeRunTimeSingle | src/domain/entities/tvShow.ts:126-131 | One run time n reads "n minutes". |
| Entities.CreatePerson | src/domain/entities/person.ts:19-36 | How a raw record becomes a Person (see below). |
| Entities.CreatePersonOfRaw | src/domain/entities/person.ts:19-36 | Writing a person as a raw record and creating it again gives the same person. |
| Entities.GenderText | src/domain/entities/person.ts:45-54 | Gender 1 is "Female" and 2 is "Male". Every other value is "Not specified". |
| Entities.Age | src/domain/entities/person.ts:56-68 | The age is null exactly when there is no birthday. Otherwise it is a number or NaN. |
| Entities.AgeIsCompletedYears | src/domain/entities/person.ts:56-68 | The age counts full years completed by the reference date, which is the deathday if present and otherwise today. It is never negative when that date is on or after the birthday. |
| Entities.AgeOfInvalid | src/domain/entities/person.ts:56-68 | An unparsable birthday or deathday gives a NaN age. |
| Dates.ParseDate | src/domain/entities/movie.ts:19 | A date is valid only when the text has the YYYY-MM-DD shape, a year in 0..9999 and a real calendar day. |
| Dates.ParseFormat | src/domain/entities/movie.ts:19 | Every calendar day, printed as YYYY-MM-DD, is read back as itself. |
| Dates.FormatParse | src/domain/entities/tvShow.ts:100 | Every text read as a valid date is that date printed back. |
| Dates.YearText | src/domain/entities/movie.ts:51-53 | The year text is "N/A" exactly for an absent date and "NaN" exactly for an invalid one. |
| Dates.YearTextOfParsed | src/domain/entities/tvShow.ts:52-54 | The year text of a parsed date is the number in its first four digits. |
| Repository.PipeJoin | src/infrastructure/repositories/tmdb/movieRepository.ts:179 | `?.join("\|")` (see below). |
| Repository.BuildParamsAt | src/infrastructure/repositories/tmdb/movieRepository.ts:167-200 | Each row of a parameter table yields its external name with the value its rule computes from the filters. |
| Repository.BuildParamsKeys | src/infrastructure/repositories/tmdb/movieRepository.ts:142-150 | The built parameters have exactly the table's names, in order. |
| Repository.BuildParamsFails | src/infrastructure/repositories/tmdb/movieRepository.ts:179-199 | Building fails exactly when a pipe-joined field holds something other than an array, null or undefined. |
| Repository.NoJoinNeverFails | src/infrastructure/repositories/tmdb/movieRepository.ts:142-150 | A table without joins always builds. |
| Repository.QueryAt | src/infrastructure/http/tmdb/httpClient.ts:67-79 | The query entry of a table name is the text of the value the table computes for it. |
| Repository.DefaultSent | src/infrastructure/repositories/tmdb/movieRepository.ts:144-145 | A field with a `\|\| default` rule is always sent, with the default standing in for falsy values. |
| Repository.QueryAbsent | src/infrastructure/http/tmdb/httpClient.ts:62-67 | A name the table does not build is sent only when it is a default: `api_key` or `language` from the client. |
| Repository.BuildParamsIgnores | src/infrastructure/repositories/tmdb/movieRepository.ts:167-200 | Filters the table does not read have no effect on the parameters. |
| Repository.MapAll | src/infrastructure/repositories/tmdb/movieRepository.ts:105 | `results.map(create)` maps one to one and in order. It fails with the first failure, and only when some element fails. |
| Repository.Envelope | src/infrastructure/repositories/tmdb/movieRepository.ts:102-109 | A search result copies page, total_pages and total_results, and maps the results one to one. It fails exactly when the response or an element cannot be read. |
| Repository.Paged | src/infrastructure/repositories/base/baseRepository.ts:34-37 | A paged call returns the client's error for its request unchanged, which is always an ApiError or a RateLimitError. When the body arrives, the result is exactly the envelope of that body: its page, one converted entity per raw result in order, and the envelope's own TypeError otherwise. |
| Repository.Fetch | src/infrastructure/repositories/base/baseRepository.ts:34-37 | A repository request resolves to the body of the transport's answer to the TMDB client's GET for that path and query. A transport failure becomes the client's translated error, an ApiError or a RateLimitError, rethrown unchanged. |
| Repository.SearchFiltersOf | src/infrastructure/repositories/tmdb/movieRepository.ts:133 | `filters \|\| { query }`: the query alone is used only when no filters are given. |
| Repository.PageArg | src/infrastructure/repositories/tmdb/movieRepository.ts:235 | A `page = 1` parameter is 1 only when the page is omitted. |
| Repository.PageOnlyQuery | src/infrastructure/repositories/tmdb/movieRepository.ts:237-239 | A list call's query holds its page and the client's default language. |
| Repository.ResultsOf | src/infrastructure/repositories/tmdb/movieRepository.ts:125 | `result.results` throws on a null response and is the results otherwise. |
| Repository.IdText | src/infrastructure/repositories/tmdb/movieRepository.ts:113 | An id is printed so that it reads back as the same integer. |
| Repository.IdPathInjective | src/infrastructure/repositories/tmdb/movieRepository.ts:283 | Paths that differ only in the id come from the same id exactly when they are equal. |
| Repository.EnglishPage | src/infrastructure/repositories/tmdb/tvShowRepository.ts:130-133 | The `{ page, language: "en-US" }` record has exactly those two keys. |
| Repository.EnglishQuery | src/infrastructure/repositories/tmdb/tvShowRepository.ts:128-142 | An explicit en-US replaces the client's configured language in the query. |
| MovieRepository.SearchMoviesCall | src/infrastructure/repositories/tmdb/movieRepository.ts:140-155 | Movie search calls /search/movie with the query, page default 1, include_adult default false, primary_release_year and language as given. |
| MovieRepository.SearchMoviesQueryDefaults | src/infrastructure/repositories/tmdb/movieRepository.ts:142-150 | The sent query always holds a page and an include_adult entry. |
| MovieRepository.SearchMoviesDropsLanguage | src/infrastructure/repositories/tmdb/movieRepository.ts:149 | An unset language hides the configured default, so no language is sent. |
| MovieRepository.SearchMovies | src/infrastructure/repositories/tmdb/movieRepository.ts:140-161 | A movie search returns the client's error for its search request unchanged. Otherwise it returns the envelope of the body, with one movie per raw result. |
| MovieRepository.DiscoverFails | src/infrastructure/repositories/tmdb/movieRepository.ts:167-200 | Discover parameters fail exactly when `withReleaseType` or `withWatchMonetizationTypes` cannot be joined. |
| MovieRepository.DiscoverMoviesCall | src/infrastructure/repositories/tmdb/movieRepository.ts:163-205 | Movie discover calls /discover/movie. It throws exactly when a joined field is not an array, null or undefined. |
| MovieRepository.DiscoverMovies | src/infrastructure/repositories/tmdb/movieRepository.ts:163-210 | Discovery fails with the join's TypeError, before any request, when a joined filter is not an array. Otherwise it returns the client's error unchanged or the envelope of the body, with one movie per raw result. |
| MovieRepository.DiscoverDefaults | src/infrastructure/repositories/tmdb/movieRepository.ts:168-173 | Page defaults to 1 and include_video to false. |
| MovieRepository.DiscoverReleaseTypes | src/infrastructure/repositories/tmdb/movieRepository.ts:179 | `with_release_type` is the release types joined with `\|`. |
| MovieRepository.DiscoverSortOrder | src/infrastructure/repositories/tmdb/movieRepository.ts:171 | `sort_by` is the sort as given. |
| MovieRepository.DiscoverIgnoresWithoutCompanies | src/infrastructure/repositories/tmdb/movieRepository.ts:167-200 | `withoutCompanies` is never sent: changing it changes nothing. |
| MovieRepository.DiscoverRuntimeName | src/infrastructure/repositories/tmdb/movieRepository.ts:193 | The movie runtime bound goes out as `with_runtime_gte`, never `with_runtime.gte`. |
| MovieRepository.PaginatedFilters | src/infrastructure/repositories/tmdb/movieRepository.ts:218-221 | In `{ page, ...filters }` a page among the filters overrides the argument. |
| MovieRepository.FindPaginatedPage | src/infrastructure/repositories/tmdb/movieRepository.ts:212-233 | The page sent by `findPaginated` is the filters' page if present, else the argument, defaulting to 1. |
| MovieRepository.FindPaginated | src/infrastructure/repositories/tmdb/movieRepository.ts:212-233 | Paging behaves as discovery on the filters with the page merged in. It fails as that call fails and otherwise returns its envelope. |
| MovieRepository.SearchByQueryAlone | src/infrastructure/repositories/tmdb/movieRepository.ts:131-138 | A search without filters sends the query and page 1. |
| MovieRepository.Search | src/infrastructure/repositories/tmdb/movieRepository.ts:131-138 | `search` returns the client's error unchanged or the envelope's error. When the body's envelope builds, the result is exactly its movies, created in order from the `results` array of the body. |
| MovieRepository.FindAll | src/infrastructure/repositories/tmdb/movieRepository.ts:120-129 | `findAll` does the same for /movie/popular, sent without parameters: the client's error, the envelope's error, or exactly the created movies. |
| MovieRepository.ListPath | src/infrastructure/repositories/tmdb/movieRepository.ts:235-279 | Every movie list lives under /movie/. |
| MovieRepository.ListCall | src/infrastructure/repositories/tmdb/movieRepository.ts:235-279 | Each list has its own path and sends only `page`, which defaults to 1. |
| MovieRepository.ListDefaultQuery | src/infrastructure/repositories/tmdb/movieRepository.ts:235-244 | A list with no page sends page "1" and the configured language. |
| MovieRepository.GetList | src/infrastructure/repositories/tmdb/movieRepository.ts:235-279 | Each list call returns the client's error unchanged or the envelope of the list's body. |
| MovieRepository.MoviePath | src/infrastructure/repositories/tmdb/movieRepository.ts:283 | Movie paths live under /movie/. |
| MovieRepository.MoviePathInjective | src/infrastructure/repositories/tmdb/movieRepository.ts:283 | Different ids give different movie paths. |
| MovieRepository.GetMovieDetails | src/infrastructure/repositories/tmdb/movieRepository.ts:281-288 | A client error for /movie/{id} is rethrown unchanged. A fetched body gives exactly what the details factory makes of it. `findById` (lines 111-118) sends the same request. |
| MovieRepository.RawCall | src/infrastructure/repositories/tmdb/movieRepository.ts:290-320 | Reviews send only a page. Credits, videos and images send no parameters. |
| MovieRepository.GetRaw | src/infrastructure/repositories/tmdb/movieRepository.ts:290-320 | Credits, videos, images and reviews return the body of their request unmapped, or the client's translated error. |
| MovieRepository.RelatedCall | src/infrastructure/repositories/tmdb/movieRepository.ts:322-350 | Similar and recommended movies call their own path under the id and send only the page. |
| MovieRepository.GetRelated | src/infrastructure/repositories/tmdb/movieRepository.ts:322-350 | Similar and recommended movies return the client's error unchanged or the envelope of the body, with one movie per raw result. |
| TvShowRepository.SearchTvShowsCall | src/infrastructure/repositories/tmdb/tvShowRepository.ts:62-75 | TV search calls /search/tv. Page defaults to 1, include_adult to false and language to en-US, and the year goes out as first_air_date_year. |
| TvShowRepository.SearchTvShowsLanguage | src/infrastructure/repositories/tmdb/tvShowRepository.ts:68 | TV search always sends a language, and en-US when none is set. |
| TvShowRepository.SearchTvShows | src/infrastructure/repositories/tmdb/tvShowRepository.ts:62-79 | TV search returns the body the server sent, unmapped, or a translated error. |
| TvShowRepository.DiscoverTvShowsCall | src/infrastructure/repositories/tmdb/tvShowRepository.ts:81-114 | TV discover calls /discover/tv with the TV table, which never fails. |
| TvShowRepository.DiscoverDefaults | src/infrastructure/repositories/tmdb/tvShowRepository.ts:86-87 | Page defaults to 1 and language to en-US. |
| TvShowRepository.DiscoverSortOrder | src/infrastructure/repositories/tmdb/tvShowRepository.ts:88 | `sort_by` is the sort as given. |
| TvShowRepository.DiscoverRuntimeName | src/infrastructure/repositories/tmdb/tvShowRepository.ts:100-101 | The TV runtime bound goes out as `with_runtime.gte`, never `with_runtime_gte`. |
| TvShowRepository.DiscoverIgnoresUnread | src/infrastructure/repositories/tmdb/tvShowRepository.ts:85-109 | Watch providers, watch region, monetization types, status and type are never sent. |
| TvShowRepository.DiscoverTvShows | src/infrastructure/repositories/tmdb/tvShowRepository.ts:81-118 | TV discover returns the body the server sent, unmapped, or a translated error. |
| TvShowRepository.PageFilters | src/infrastructure/repositories/tmdb/tvShowRepository.ts:249 | In `{ ...filters, page }` the argument overrides any page among the filters. |
| TvShowRepository.PageFiltersKeep | src/infrastructure/repositories/tmdb/tvShowRepository.ts:249 | Every other filter is kept. |
| TvShowRepository.PagedRequestPage | src/infrastructure/repositories/tmdb/tvShowRepository.ts:238-270 | `findPaginated` and `findByPage` send the argument page, defaulting to 1. |
| TvShowRepository.SummaryAsWritten | src/infrastructure/repositories/tmdb/tvShowRepository.ts:250-255 | As written, the summary copies results and page and reads camelCase totals. |
| TvShowRepository.AsWrittenLosesTotals | src/infrastructure/repositories/tmdb/tvShowRepository.ts:250-255 | On a TMDB response with snake_case totals, the written summary's totals are undefined. |
| TvShowRepository.Summary | src/infrastructure/repositories/tmdb/tvShowRepository.ts:250-255 | The corrected summary copies results and page, and reads `total_pages` and `total_results`. |
| TvShowRepository.SummaryMatchesEnvelope | src/infrastructure/repositories/tmdb/tvShowRepository.ts:249-255 | The corrected summary's page and totals equal those of the movie-style search envelope. |
| TvShowRepository.SummaryCounterexample | src/infrastructure/repositories/tmdb/tvShowRepository.ts:252-254 | On page 2 of 3 (60 results), the written summary loses 3 and 60, and the corrected one keeps them. |
| TvShowRepository.FindPaginatedAsWritten | src/infrastructure/repositories/tmdb/tvShowRepository.ts:238-259 | As written, `findPaginated` rethrows discover errors and otherwise gives the written summary of the discover response. For a response that spells its totals only in snake case, both totals come back `undefined`. |
| TvShowRepository.FindPaginated | src/infrastructure/repositories/tmdb/tvShowRepository.ts:238-259 | `findPaginated` rethrows discover errors. A fetched discover response gives exactly its corrected summary. |
| TvShowRepository.FindByPage | src/infrastructure/repositories/tmdb/tvShowRepository.ts:261-270 | `findByPage` sends the discover request for the filters with the page merged in. It returns that body unmapped, or the client's translated error. |
| TvShowRepository.FindAll | src/infrastructure/repositories/tmdb/tvShowRepository.ts:42-51 | `findAll` rethrows the client error for /tv/popular. A fetched body gives exactly its `results`, or a `TypeError` when the body is null or undefined. |
| TvShowRepository.Search | src/infrastructure/repositories/tmdb/tvShowRepository.ts:53-60 | `search` runs a TV search on the filters, or on the query alone when none are given. It rethrows the search's error. A fetched body gives exactly its `results`, or a `TypeError` when the body is null or undefined. |
| TvShowRepository.ListPath | src/infrastructure/repositories/tmdb/tvShowRepository.ts:128-190 | Every TV list lives under /tv/. |
| TvShowRepository.ListCall | src/infrastructure/repositories/tmdb/tvShowRepository.ts:128-190 | Each TV list has its own path and sends its page (default 1) and en-US. |
| TvShowRepository.GetList | src/infrastructure/repositories/tmdb/tvShowRepository.ts:128-190 | Each TV list returns the body of its request unmapped, or the client's translated error. |
| TvShowRepository.TvPath | src/infrastructure/repositories/tmdb/tvShowRepository.ts:120-126 | TV paths live under /tv/. |
| TvShowRepository.TvPathInjective | src/infrastructure/repositories/tmdb/tvShowRepository.ts:122 | Different ids give different TV paths. |
| TvShowRepository.GetTvShowDetails | src/infrastructure/repositories/tmdb/tvShowRepository.ts:120-126 | Details are the unmapped body of /tv/{id}, sent without parameters, or the client's translated error. `findById` (lines 33-40) sends the same request. |
| TvShowRepository.GetTvShowCredits | src/infrastructure/repositories/tmdb/tvShowRepository.ts:192-198 | Credits are the unmapped body of /tv/{id}/credits, or the client's translated error. |
| TvShowRepository.RelatedCall | src/infrastructure/repositories/tmdb/tvShowRepository.ts:200-236 | Similar and recommended shows call their own path under the id and send the page (default 1) and en-US. |
| TvShowRepository.GetRelated | src/infrastructure/repositories/tmdb/tvShowRepository.ts:200-236 | Similar and recommended shows are the unmapped body of their request, or the client's translated error. |
| PersonRepository.SearchPeopleCall | src/infrastructure/repositories/tmdb/personRepository.ts:58-70 | People search calls /search/person with query, page default 1, include_adult default false and language default en-US, and nothing else. |
| PersonRepository.SearchPeopleLanguage | src/infrastructure/repositories/tmdb/personRepository.ts:64 | People search always sends a language, and en-US when none is set. |
| PersonRepository.SearchPeople | src/infrastructure/repositories/tmdb/personRepository.ts:58-74 | People search returns the body the server sent, unmapped, or a translated error. |
| PersonRepository.Search | src/infrastructure/repositories/tmdb/personRepository.ts:49-56 | `search` runs a people search on the filters, or on the query alone when none are given. It rethrows the search's error. A fetched body gives exactly its `results`, or a `TypeError` when the body is null or undefined. |
| PersonRepository.FindAll | src/infrastructure/repositories/tmdb/personRepository.ts:38-47 | `findAll` rethrows the client error for /person/popular. A fetched body gives exactly its `results`, or a `TypeError` when the body is null or undefined. |
| PersonRepository.PopularCall | src/infrastructure/repositories/tmdb/personRepository.ts:88-98 | Popular people calls /person/popular with the page (default 1) and en-US. |
| PersonRepository.GetPopularPeople | src/infrastructure/repositories/tmdb/personRepository.ts:88-102 | Popular people are the unmapped body of /person/popular, or the client's translated error. |
| PersonRepository.PersonPath | src/infrastructure/repositories/tmdb/personRepository.ts:31 | Person paths live under /person/. |
| PersonRepository.PersonPathInjective | src/infrastructure/repositories/tmdb/personRepository.ts:82 | Different ids give different person paths. |
| PersonRepository.FindByIdVersusDetails | src/infrastructure/repositories/tmdb/personRepository.ts:29-86 | `findById` and `getPersonDetails` call the same path. The first sends the configured language and the second always en-US. |
| PersonRepository.FindById | src/infrastructure/repositories/tmdb/personRepository.ts:29-36 | `findById` returns the unmapped body of /person/{id}, sent without parameters, or the client's translated error. |
| PersonRepository.GetPersonDetails | src/infrastructure/repositories/tmdb/personRepository.ts:76-86 | `getPersonDetails` returns the unmapped body of /person/{id} asked in en-US, or the client's translated error. |
| PersonRepository.CreditsCall | src/infrastructure/repositories/tmdb/personRepository.ts:104-132 | Credits call /person/{id}/movie_credits or /person/{id}/tv_credits with en-US. |
| PersonRepository.GetCredits | src/infrastructure/repositories/tmdb/personRepository.ts:104-132 | Movie and TV credits are the unmapped body of their request, or the client's translated error. |
| PersonRepository.CreditsDistinct | src/infrastructure/repositories/tmdb/personRepository.ts:110-127 | Movie-credit and TV-credit paths never coincide. |
| SearchRepository.MultiSearchCall | src/infrastructure/repositories/tmdb/searchRepository.ts:79-87 | Multi search calls /search/multi with query, page default 1, include_adult default false and language as given, and nothing else. |
| SearchRepository.MultiSearchLanguage | src/infrastructure/repositories/tmdb/searchRepository.ts:84 | An unset language hides the configured default in a multi search. |
| SearchRepository.MultiSearch | src/infrastructure/repositories/tmdb/searchRepository.ts:79-95 | Multi search rethrows client errors unchanged and otherwise maps the envelope through the factory. |
| SearchRepository.TrendingPath | src/infrastructure/repositories/tmdb/searchRepository.ts:102 | Trending paths live under /trending/. |
| SearchRepository.TrendingCodes | src/infrastructure/repositories/tmdb/searchRepository.ts:102 | Equal trending paths have equal media-type and time-window codes. |
| SearchRepository.TrendingPathInjective | src/infrastructure/repositories/tmdb/searchRepository.ts:102 | Different media types or windows give different trending paths. |
| SearchRepository.TrendingCall | src/infrastructure/repositories/tmdb/searchRepository.ts:97-102 | Trending sends only `page`, defaulting to 1. |
| SearchRepository.TrendingQuery | src/infrastructure/repositories/tmdb/searchRepository.ts:97-102 | Trending with no page sends page "1" and the configured language. |
| SearchRepository.GetTrending | src/infrastructure/repositories/tmdb/searchRepository.ts:97-110 | Trending rethrows client errors unchanged and otherwise maps the envelope through the factory. |
| SearchService.Request | src/domain/services/searchService.ts:19-117 | Only a movie discover can fail before sending: it is the only operation with joined fields. |
| SearchService.RequestServed | src/domain/services/searchService.ts:19-117 | Every operation's request goes to a path its own repository serves. |
| SearchService.MovieServed | src/domain/services/searchService.ts:59-73 | Movie operations call movie paths. |
| SearchService.TvShowServed | src/domain/services/searchService.ts:75-89 | TV operations always build a request, to TV paths. |
| SearchService.PersonServed | src/domain/services/searchService.ts:91-93 | Person operations always build a request, to person paths. |
| SearchService.SearchServed | src/domain/services/searchService.ts:31-45 | Multi-search and trending always build a request, to search-repository paths. |
| SearchService.ServedByOne | src/domain/services/searchService.ts:19-117 | No path is served by two repositories. |
| SearchService.RouteByPath | src/domain/services/searchService.ts:19-117 | Operations that call the same path belong to the same repository, so each delegates to exactly one. |
| SearchService.OmittedPageIsOne | src/domain/services/searchService.ts:59-109 | An omitted page is forwarded as omitted, so the repository sends page 1. |
| UseCases.SearchFilters | src/application/use-cases/movieSearchUseCase.ts:9-17 | `{ query, page, ...options }`: the options override query and page, page defaults to 1, and every other option passes through. |
| UseCases.ShortcutMediaBijective | src/application/use-cases/generalSearchUseCase.ts:22-36 | The four trending shortcuts fix four different media types and cover all of them. |
| UseCases.MovieDelegate | src/application/use-cases/movieSearchUseCase.ts:9-49 | Movie use cases go to the movie repository. Exactly the listings and related calls carry a page, which defaults to 1. |
| UseCases.TvShowDelegate | src/application/use-cases/tvShowSearchUseCase.ts:9-49 | TV use cases go to the TV repository. Exactly the listings and related calls carry a page, which defaults to 1. |
| UseCases.PersonDelegate | src/application/use-cases/personSearchUseCase.ts:9-33 | Person use cases go to the person repository. Only popular people carries a page, which defaults to 1. |
| UseCases.GeneralDelegate | src/application/use-cases/generalSearchUseCase.ts:8-36 | General use cases go to the search repository. All but multi search carry a page, which defaults to 1. |
| UseCases.Delegate | src/application/use-cases/movieSearchUseCase.ts:27-49 | Every use case reaches its own domain's repository. A page argument, when it has one, is never left undefined. |
| UseCases.PopularMoviesSendPageOne | src/application/use-cases/movieSearchUseCase.ts:27-29 | The movie lists with no page send page "1" and the configured language. |
| UseCases.SearchMoviesDefaults | src/application/use-cases/movieSearchUseCase.ts:9-16 | A bare movie search sends the query, page "1", include_adult "false" and no language. |
| UseCases.BareSearchQuery | src/application/use-cases/movieSearchUseCase.ts:10-14 | The `{ query, page: 1 }` filters give that query on the wire. |
| UseCases.OptionsPageWins | src/application/use-cases/tvShowSearchUseCase.ts:9-14 | A page in the options beats the page argument. |
| UseCases.ShortcutDefaults | src/application/use-cases/generalSearchUseCase.ts:22-24 | A trending shortcut without arguments calls /trending/{type}/week with page 1. |
| Formatter.MediaTypeIcon | src/presentation/formatters/viewFormatter.ts:437-448 | The unknown icon is shown exactly for media types other than movie, tv and person. |
| Formatter.MediaTypeIconInjective | src/presentation/formatters/viewFormatter.ts:437-448 | Movie, tv and person have three different icons. |
| Formatter.MediaTypeIconOfAll | src/presentation/formatters/viewFormatter.ts:445-446 | The "all" media type gets the unknown icon. |
| Formatter.GenderText | src/presentation/formatters/viewFormatter.ts:450-461 | The console adds 3 as "Non-binary" and otherwise agrees with the entity's gender text. |
| Formatter.GenderTextsDiffer | src/presentation/formatters/viewFormatter.ts:456-457 | The two gender texts differ exactly for gender 3. |
| Formatter.Truncate | src/presentation/formatters/viewFormatter.ts:463-468 | Short text is unchanged. Longer text becomes a prefix plus "...", and its length is the maximum, or 3 when the maximum is below 3. |
| Formatter.TruncateIdempotent | src/presentation/formatters/viewFormatter.ts:463-468 | Truncating twice is truncating once. |
| Formatter.TruncateFits | src/presentation/formatters/viewFormatter.ts:467 | With a maximum of at least 3, the output never exceeds it. |
| Formatter.WrapText | src/presentation/formatters/viewFormatter.ts:470-495 | Empty text wraps to "". Every line longer than the width is a single word. Single-spaced text wraps to lines that rejoin to the text, so no word is split, lost or moved. |
| Formatter.WrapFinish | src/presentation/formatters/viewFormatter.ts:490-494 | Pushing the last open line keeps both wrapping invariants. |
| Formatter.WrapBreak | src/presentation/formatters/viewFormatter.ts:477-481 | Closing the current line and starting one with the next word keeps the invariant. |
| Formatter.WrapLongWord | src/presentation/formatters/viewFormatter.ts:477-483 | A word too long for an empty line becomes a line of its own. |
| Formatter.WrapAppend | src/presentation/formatters/viewFormatter.ts:485-487 | Adding a word that fits to the current line keeps the invariant. |
| InteractiveMenu.CheckQuery | src/presentation/interactive/interactiveMenu.ts:122 | A query is accepted exactly when it has a non-space character. Otherwise the prompt asks "Please enter a search query". |
| InteractiveMenu.CheckYear | src/presentation/interactive/interactiveMenu.ts:128 | A year is accepted exactly when empty or four digits. |
| InteractiveMenu.CheckId | src/presentation/interactive/interactiveMenu.ts:197 | An id is accepted exactly when it is a non-empty run of digits, and is rejected with that prompt's message. |
| InteractiveMenu.CheckVoteAverage | src/presentation/interactive/interactiveMenu.ts:175 | A vote average is accepted exactly when it is empty, a run of digits, or a run of digits, one point and another run of digits (`^\d+(\.\d+)?$`). Anything else is rejected with the number message. |
| InteractiveMenu.DecimalAlternatives | src/presentation/interactive/interactiveMenu.ts:175 | The first-point reading of the decimal pattern accepts the same strings as its two alternatives: digits alone, or digits, a point at some position, and digits. |
| InteractiveMenu.CheckVoteCount | src/presentation/interactive/interactiveMenu.ts:181 | A vote count is accepted exactly when empty or all digits. |
| InteractiveMenu.CountIsAverage | src/presentation/interactive/interactiveMenu.ts:175-181 | Every valid vote count is a valid vote average. |
| InteractiveMenu.AverageOfParts | src/presentation/interactive/interactiveMenu.ts:175 | Two printed naturals joined by a point form a valid vote average. |
| InteractiveMenu.IdOfNat | src/presentation/interactive/interactiveMenu.ts:197-201 | Every printed natural is a valid id and `parseInt` reads it back. |
| InteractiveMenu.FourDigitYearsAccepted | src/presentation/interactive/interactiveMenu.ts:151 | Every year from 1000 to 9999, written in decimal, passes the year validator. |
| InteractiveMenu.AcceptedYearsParse | src/presentation/interactive/interactiveMenu.ts:151 | A non-empty year the validator accepts parses to a whole number between 0 and 9999. |
| InteractiveMenu.MainStep | src/presentation/interactive/interactiveMenu.ts:16-67 | Only "exit" leaves the main menu, and the main menu itself calls no controller method. |
| InteractiveMenu.MovieListOf | src/presentation/interactive/interactiveMenu.ts:516-545 | A movie-list choice names the repository list at /movie/{choice}. |
| InteractiveMenu.TvListOf | src/presentation/interactive/interactiveMenu.ts:547-576 | A TV-list choice names the repository list at /tv/{choice}. |
| InteractiveMenu.ListsOffered | src/presentation/interactive/interactiveMenu.ts:522-557 | Every repository list is offered in the list menus. |
| InteractiveMenu.MenuStep | src/presentation/interactive/interactiveMenu.ts:70-603 | Every direct controller call from a menu is a list shortcut with page "1". This covers the movie, TV and people menus (lines 70-114, 204-248, 338-374), the list browser and its three list menus (lines 486-580), and the advanced menu (lines 582-603). |
| InteractiveMenu.BackCallsNothing | src/presentation/interactive/interactiveMenu.ts:89 | "back" returns from every menu without a controller call. |
| InteractiveMenu.ShortcutsMatchBrowser | src/presentation/interactive/interactiveMenu.ts:235-246 | A list shortcut in the movie or TV menu calls what the list browser calls for the same list. |
| InteractiveMenu.LookupCall | src/presentation/interactive/interactiveMenu.ts:404-434 | A details or credits lookup sends the id and no page. |
| InteractiveMenu.SearchCall | src/presentation/interactive/interactiveMenu.ts:116-484 | Every search form sends page "1": the movie and TV title searches (lines 116-143, 250-277), the two discover forms (lines 145-189, 279-323), the person search (lines 376-396), the multi search (lines 437-457) and trending (lines 459-484). |
| InteractiveMenu.Submit | src/presentation/interactive/interactiveMenu.ts:118-201 | A form reaches the controller exactly when every validator accepts it. A lookup sends the parsed id and no page. Every other form sends page "1". |
| InteractiveMenu.ParsedId | src/presentation/interactive/interactiveMenu.ts:201 | `parseInt` of a validated id is the number its digits denote. |
| InteractiveMenu.BlankQueryNotSent | src/presentation/interactive/interactiveMenu.ts:443 | A blank query never reaches the controller. |
| SearchHook.KeyValid | src/presentation/browser/hooks/useMovieSearch.ts:23-30 | The key is valid exactly when the configuration loads and the key is non-empty, not the placeholder and not blank. |
| SearchHook.KeyValidFromEnv | src/presentation/browser/hooks/useMovieSearch.ts:24-29 | On settings loaded from the environment, the key check passes exactly when the key is set, not the placeholder and not blank. The hook reaches this check only after its repositories resolve, and without a key that resolution throws first (see SearchHook.MountNeedsKey). |
| SearchHook.MountNeedsKey | src/presentation/browser/hooks/useMovieSearch.ts:17-29 | On a first run, mounting the hook succeeds exactly when the API key is set. Without the key, the hook throws the missing-key `ConfigurationError` and its key check is never reached. Once mounted, the key check rejects only the placeholder and a blank key. |
| SearchHook.ErrorText | src/presentation/browser/hooks/useMovieSearch.ts:55 | The message shown is the error's own message if any, else the operation's fallback, and it is never empty. |
| SearchHook.RepositoryRequest | src/presentation/browser/hooks/useMovieSearch.ts:43-48 | Every hook operation sends `page \|\| 1`. |
| SearchHook.SearchSendsQuery | src/presentation/browser/hooks/useMovieSearch.ts:44 | Hook searches send their query. |
| SearchHook.PageDefaultsToOne | src/presentation/browser/hooks/useMovieSearch.ts:45 | An omitted page, page 0 or NaN asks for page 1. |
| SearchHook.Run | src/presentation/browser/hooks/useMovieSearch.ts:32-61 | How an operation behaves with and without a valid key (see below). |
| SearchHook.FailureMessage | src/presentation/browser/hooks/useMovieSearch.ts:54-57 | A repository failure is reported with its message, or the operation's fallback, both in the response and in the state. |
| SearchHook.GuardIgnoresRepository | src/presentation/browser/hooks/useMovieSearch.ts:33-37 | Without a key the outcome does not depend on the repository at all. |
| SearchPage.SortMenus | src/presentation/browser/pages/SearchPage.tsx:15-31 | The people tab offers only popularity and name. Movies and TV offer every option. |
| SearchPage.HandleSearch | src/presentation/browser/pages/SearchPage.tsx:45-48 | A blank query does nothing. Otherwise the page is set and the active tab's search starts for that query and page. |
| SearchPage.ApplyReply | src/presentation/browser/pages/SearchPage.tsx:50-75 | A successful reply replaces only its tab's list and the page count. A failed one changes nothing. |
| SearchPage.FoundAsWritten | src/presentation/browser/pages/SearchPage.tsx:53-71 | As written, a movie reply is read as it is. A TV or people reply gives the body's `results` array, and for a body as TMDB sends it the page count is `undefined`. |
| SearchPage.FoundOf | src/presentation/browser/pages/SearchPage.tsx:53-71 | Corrected read of a reply: the results as written, and the page count under the name the data carries it. That is `total_pages` for TMDB's body, which the TV and people searches hand over unmapped. |
| SearchPage.RawCountLost | src/presentation/browser/pages/SearchPage.tsx:60-71 | As written, a TV or people reply carrying TMDB's body leaves the page count `undefined`, whatever TMDB reported. |
| SearchPage.RawTabStuck | src/presentation/browser/pages/SearchPage.tsx:60-71 | As written, a TV or people search whose body reports two or more pages renders a bar with no page buttons and no "Next". |
| SearchPage.RawTabPaged | src/presentation/browser/pages/SearchPage.tsx:60-71 | Reading `total_pages`, the page keeps TMDB's count. On page 1 of a result with several pages, the bar offers "Next" and a button for page 2. |
| SearchPage.ReplyShown | src/presentation/browser/pages/SearchPage.tsx:51-75 | A reply for the tab on show is what the page then shows. |
| SearchPage.Reset | src/presentation/browser/pages/SearchPage.tsx:82-89 | A tab change sets the tab, page 1 and popularity, and clears all three lists. |
| SearchPage.TabChangeAsWritten | src/presentation/browser/pages/SearchPage.tsx:81-94 | As written, a tab change resets the page and searches exactly when the query is not blank. |
| SearchPage.TabChangeSearchesOldTab | src/presentation/browser/pages/SearchPage.tsx:173-177 | With a query, a tab change as written searches the old tab and then the new one. The old tab's reply refills a list the reset had just emptied. |
| SearchPage.TabChange | src/presentation/browser/pages/SearchPage.tsx:91-93 | A corrected tab change resets, then searches the new tab once, and only when the query is not blank. |
| SearchPage.TabChangeSearchesNewTab | src/presentation/browser/pages/SearchPage.tsx:81-94 | After a corrected tab change every search is of the new tab for page 1. The reset sort is one the new tab offers. |
| SearchPage.PageChange | src/presentation/browser/pages/SearchPage.tsx:96-100 | A page change searches the entered query at that page unless the query is blank. |
| SearchPage.PageButtons | src/presentation/browser/pages/SearchPage.tsx:225-243 | For a numeric page count, the buttons form the window from two before to two after the current page, cut to 1..count. There are at most five, all existing, and the current page is among them when it exists. |
| SearchPage.RenderPagination | src/presentation/browser/pages/SearchPage.tsx:222-268 | How the pagination bar is drawn (see below). |
| SearchPage.CentredWindow | src/presentation/browser/pages/SearchPage.tsx:226-230 | Away from both ends, the bar shows five pages centred on the current one. |

Some rows need more than one sentence. Each note below continues the row of the same name.

- **TmdbClient.QueryEntries.** A caller key gets the text of its value, or no entry when the value is undefined or null. An explicit undefined therefore suppresses a default. A key the caller does not give gets the configured `api_key` or `language`, or nothing.
- **TmdbClient.HandleTmdbError.**
  - 401, 404 and 500 become fixed-message ApiErrors, and 429 becomes the rate-limit error.
  - Any other non-zero status keeps its status, with its message or "An error occurred".
  - Status 0 becomes the TMDB network error when the message mentions "Network error". Otherwise it keeps its message, or "An unknown error occurred".
- **Container.Resolve.** An unregistered name fails and changes nothing. When every definition can be built, resolution succeeds. A freshly built singleton is cached, and a transient gets a new identity. Only the resolved name and its lower-ranked dependencies enter the cache.
- **Entities.DateField.** A falsy date field gives no date. A string is parsed. Any other truthy value throws a TypeError, because `.replace` is not defined on it.
- **Entities.CreateMovie.**
  - Creation fails exactly on a null record or an unreadable release date.
  - `adult` defaults to false and `genre_ids` to [].
  - The vote fields are copied without defaults.
- **Entities.CreateTvShow.**
  - Creation fails exactly on a null record or an unreadable first air date.
  - `adult` is coerced with `!!`, and `origin_country` defaults to [].
  - `genre_ids` is copied without a default.
- **Entities.CreatePerson.**
  - Creation fails exactly on a null record or an unreadable birthday or deathday.
  - Empty dates are absent.
  - `adult` is coerced with `!!`.
  - `also_known_as` is copied without a default.
- **Repository.PipeJoin.** Null and undefined stay undefined, and an array becomes its elements joined with `|`. Anything else throws.
- **SearchHook.Run.**
  - Without a valid key, the operation fails with the fixed message, calls no repository and leaves loading alone.
  - With a valid key, it sends the operation's request and ends not loading. It succeeds exactly when the repository does, with its data or a non-empty error that is also kept in the state.
- **SearchPage.RenderPagination.**
  - The page count is compared as `Number(totalPages)`.
  - There is no bar when that is a number of at most one.
  - For a larger number, the buttons are the window of `PageButtons`, all within 1..total.
  - "Previous" shows exactly when current > 1. "Next" shows exactly when the count is a number and current < total.
  - A count that is not a number, such as `undefined`, gives a bar with no page buttons and no "Next".

## Left out

- The transport: axios, its interceptors, timeouts and headers on the wire, and the legacy client's `URL`-object `api_key` injection. A transport is a function from request to answer or failure. The legacy client's `URL` parsing (src/infrastructure/http/httpClient.ts:27-40) is not modelled.
- Percent-encoding of the query string, which follows the application/x-www-form-urlencoded serializer of section 5.2 of the WHATWG URL Standard. The encoder is a parameter, required to be injective and free of `&` and `=`.
- JavaScript `Date` parsing beyond the `YYYY-MM-DD` shape TMDB sends. Any other text is an invalid date, and the year text of an invalid date is "NaN". "Today" is an input.
- Dates.ParseDate: does not model two behaviours of a JavaScript engine. V8's parser of slash-separated dates rolls a day past the end of its month over into the next month (`2019/02/30` becomes 2 March 2019), and the model returns the invalid date instead. V8 also moves years below 100 into the twentieth or twenty-first century, and the model keeps the year as written. Both behaviours are engine-specific and are not part of the ECMAScript standard, so the model promises only the strict reading. TMDB sends real calendar days with four-digit years, so the two readings agree on its dates.
- Floating point. The model has no `toFixed` or `getFormattedVoteAverage`. Numbers in raw records are integers. Only `parseInt` is modelled.
- Sorting of results and `localeCompare` in the search page, and its deferred re-sort.
- React rendering, the cards and pages other than the search page, the console rendering of the view formatter, `chalk` and tables, the `inquirer` prompt loop and `commander` parsing. The menu is modelled as the step each choice leads to. Forms are answered in full and then validated.
- The controller's `parseInt` and `parseFloat` of console strings, beyond reading validated ids.
- Loading `.env` files and webpack's injection of the environment. The environment is a map from names to strings.
- String lengths count characters, not UTF-16 code units, in `truncateText` and `wrapText`.
- Container.Resolve: the arguments a factory receives are recorded as the resolved dependencies. The factories' bodies are not run. Each callable instead carries what calling it does: build a new object, or throw a given error. The configured factories resolve the same names again from the container, and those resolutions hit the cache. The configuration service's factory throws the error of `getInstance`, read once for the holder and environment given to `configure`. The model does not follow the holder or the environment changing between two resolutions. A rank of the definitions is required, because the container has no cycle detection. A cyclic registration overflows the stack in the source, and the model does not cover it.
- SearchService.Request: the service layer is modelled by the request each operation sends, not by the awaited repository result. The results are those of the repository members.
- The `limit` argument of both `findPaginated` methods, which no code reads.
- The factories for multi-search and trending results are not part of this model. They are parameters of `SearchRepository.MultiSearch` and `SearchRepository.GetTrending`.
- The configuration services' getters, which return one field of the loaded configuration each.
- SearchPage.FoundAsWritten: reads a TV or people body whose `results` is not an array as an empty list, and so does `SearchPage.FoundOf`. The page stores `result.data.results` unchanged (src/presentation/browser/pages/SearchPage.tsx:62 and :70), and `renderResults` then throws on its `.length` or `.map` (lines 196-199 and 212-216). Rendering is not part of this model, so the model does not reach that throw. On a body with a `results` array, which is what TMDB's search endpoints send, the two readings agree.
- The hook's `loading` flag while a request is in flight. Only its value after each call is modelled.
- Console logging in the repositories' `handleError` before the rethrow.

## Findings

| source | as written | input that shows it | evidently intended | confidence | as-written member | corrected member |
|---|---|---|---|---|---|---|
| src/infrastructure/repositories/tmdb/tvShowRepository.ts:250-255 | `findPaginated` reads `result.totalPages` and `result.totalResults` from the raw snake_case TMDB response that `discoverTvShows` returns unmapped | a discover response `{ page: 2, results: [], total_pages: 3, total_results: 60 }` | read `total_pages` and `total_results`, as the movie repository's envelope does | high; not executed | TvShowRepository.SummaryAsWritten, TvShowRepository.FindPaginatedAsWritten, TvShowRepository.AsWrittenLosesTotals, TvShowRepository.SummaryCounterexample | TvShowRepository.Summary, TvShowRepository.FindPaginated, TvShowRepository.SummaryMatchesEnvelope |
| src/presentation/browser/pages/SearchPage.tsx:60-71 | The TV and people branches read `result.data.totalPages`. Those searches return TMDB's body unmapped (tvShowRepository.ts:62-78, personRepository.ts:58-74), and it has only `total_pages`, so the page count becomes `undefined`. `renderPagination` then shows no page buttons and no "Next" | a TV search whose body is `{ page: 1, results: [], total_pages: 3, total_results: 60 }` | the TV and people tabs page through TMDB's `total_pages`, as the movie tab does | high; not executed | SearchPage.FoundAsWritten, SearchPage.RawTabStuck, SearchPage.RawCountLost | SearchPage.FoundOf, SearchPage.RawTabPaged |
| src/presentation/browser/pages/SearchPage.tsx:81-94 | `handleTabChange` calls the `handleSearch` of the current render, which still sees the old tab. The `activeTab` effect (lines 173-177) then searches the new tab as well | a non-blank query and a switch from the movies tab to the TV tab | one search, of the new tab, after the reset | medium; not executed | SearchPage.TabChangeAsWritten, SearchPage.TabChangeSearchesOldTab | SearchPage.TabChange, SearchPage.TabChangeSearchesNewTab |
