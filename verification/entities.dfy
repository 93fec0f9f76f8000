/** The domain entities built from raw TMDB records: movies, TV shows and people, with the
    derived texts their getters compute (image URLs, years, runtimes, genre lists, gender,
    age). Fields the factories copy without conversion stay JavaScript values, so a missing
    field is `undefined` exactly as in the entity. */
module Entities {
  import opened Wrappers
  import opened Strings
  import opened Js
  import opened Errors
  import opened Dates
  import Query

  const ReadOfNullish := "Cannot read properties of null or undefined"
  const NotAFunction := "is not a function"

  /** `data.key` inside a factory: a `TypeError` when `data` itself is absent. */
  function Prop(data: Value, key: string): (r: Result<Value, Error>)
    ensures r.Err? <==> Nullish(data)
    ensures r.Ok? ==> r.value == GetOpt(data, key)
  {
    match Get(data, key)
    case None => Err(TypeError(ReadOfNullish))
    case Some(v) => Ok(v)
  }

  /** `v ? new Date(v.replace(/-/g, '/')) : null`: a falsy value is no date, a non-empty
      string is parsed, and any other truthy value has no `replace` to call. */
  function DateField(v: Value): (r: Result<Option<Date>, Error>)
    ensures !Truthy(v) ==> r == Ok(None)
    ensures Truthy(v) && v.Str? ==> r == Ok(Some(ParseDate(v.s)))
    ensures Truthy(v) && !v.Str? ==> r.Err? && r.error.TypeError?
  {
    if !Truthy(v) then Ok(None)
    else match v
      case Str(s) => Ok(Some(ParseDate(s)))
      case _ => Err(TypeError("replace " + NotAFunction))
  }

  /** The text a TMDB record holds for a date the entity holds: the inverse of `DateField`
      on the dates `ParseDate` produces (see `DateOk`). */
  function DateRaw(d: Option<Date>): Value {
    match d
    case None => Null
    case Some(Calendar(y, m, dd)) =>
      if 0 <= y < 10000 && ValidDay(y, m, dd) then Str(FormatDate(y, m, dd)) else Str("Invalid Date")
    case Some(InvalidDate) => Str("Invalid Date")
  }

  /** A date a factory can produce: no date, the invalid date, or a day with a four-digit
      year. */
  predicate DateOk(d: Option<Date>) {
    d.Some? && d.value.Calendar? ==> ValidDay(d.value.year, d.value.month, d.value.day) && 0 <= d.value.year < 10000
  }

  lemma DateFieldOfRaw(d: Option<Date>)
    requires DateOk(d)
    ensures DateField(DateRaw(d)) == Ok(d)
  {
    if d.Some? && d.value.Calendar? {
      ParseFormat(d.value.year, d.value.month, d.value.day);
    }
  }

  // ---------------------------------------------------------------- images

  const ImageBase := "https://image.tmdb.org/t/p/"

  /** The image getters: no URL for an empty or missing path, else the CDN base, the size
      and the path. */
  function ImageUrl(path: Value, size: string): (url: Option<string>)
    ensures url.None? <==> !Truthy(path)
    ensures url.Some? ==> |url.value| >= |ImageBase| + |size| && url.value[..|ImageBase|] == ImageBase
  {
    if !Truthy(path) then None else Some(ImageBase + size + ToStr(path))
  }

  /** Reading the path back out of an image URL of a given size. */
  function ImagePath(url: string, size: string): (p: Option<string>)
    ensures p.Some? ==> url == ImageBase + size + p.value
  {
    var pre := ImageBase + size;
    if |url| >= |pre| && url[..|pre|] == pre then
      assert url == pre + url[|pre|..];
      Some(url[|pre|..])
    else None
  }

  /** An image URL determines the path it was built from. */
  lemma ImagePathOfUrl(path: Value, size: string)
    requires Truthy(path)
    ensures ImagePath(ImageUrl(path, size).value, size) == Some(ToStr(path))
  {
    var pre := ImageBase + size;
    var url := ImageUrl(path, size).value;
    assert url == pre + ToStr(path);
    assert url[..|pre|] == pre;
    assert url[|pre|..] == ToStr(path);
  }

  /** The default size of `getPosterUrl` (movies and TV shows) and `getProfileUrl` (people). */
  const PosterSize := "w500"

  /** The default size of `getBackdropUrl` (movies and TV shows). */
  const BackdropSize := "w780"

  /** An image getter with a default size, for the entity's path: the image at the given
      size, or at the default when none is given, if there is a path. */
  function SizedImageUrl(path: Value, size: Option<string>, default: string): (url: Option<string>)
    ensures url.None? <==> !Truthy(path)
    ensures url.Some? ==> ImagePath(url.value, size.GetOr(default)) == Some(ToStr(path))
  {
    if Truthy(path) then ImagePathOfUrl(path, size.GetOr(default)); ImageUrl(path, size.GetOr(default))
    else None
  }

  // ---------------------------------------------------------------- movies

  datatype Movie = Movie(
    id: Value, title: Value, overview: Value, releaseDate: Option<Date>,
    posterPath: Value, backdropPath: Value, voteAverage: Value, voteCount: Value,
    popularity: Value, adult: Value, originalLanguage: Value, originalTitle: Value,
    genreIds: Value)

  /** `Movie.create(data)`: the date is parsed, `adult` defaults to `false` and `genre_ids`
      to `[]`; every other field, the votes included, is copied as it is. */
  function CreateMovie(data: Value): (r: Result<Movie, Error>)
    ensures r.Err? <==> Nullish(data) || DateField(GetOpt(data, "release_date")).Err?
    ensures r.Ok? ==> r.value.releaseDate == DateField(GetOpt(data, "release_date")).value
    ensures r.Ok? ==> r.value.adult == (if Truthy(GetOpt(data, "adult")) then GetOpt(data, "adult") else Bool(false))
    ensures r.Ok? ==> r.value.genreIds == (if Truthy(GetOpt(data, "genre_ids")) then GetOpt(data, "genre_ids") else Arr([]))
    ensures r.Ok? ==> r.value.voteAverage == GetOpt(data, "vote_average") && r.value.voteCount == GetOpt(data, "vote_count")
  {
    var rd :- Prop(data, "release_date");
    var date :- DateField(rd);
    Ok(Movie(
      GetOpt(data, "id"), GetOpt(data, "title"), GetOpt(data, "overview"), date,
      GetOpt(data, "poster_path"), GetOpt(data, "backdrop_path"),
      GetOpt(data, "vote_average"), GetOpt(data, "vote_count"), GetOpt(data, "popularity"),
      Or(GetOpt(data, "adult"), Bool(false)),
      GetOpt(data, "original_language"), GetOpt(data, "original_title"),
      Or(GetOpt(data, "genre_ids"), Arr([]))))
  }

  /** A movie `Movie.create` can produce: its `adult` is a boolean, its genre ids an array
      and its date one the parser yields. */
  predicate MovieOk(m: Movie) {
    m.adult.Bool? && m.genreIds.Arr? && DateOk(m.releaseDate)
  }

  /** The TMDB record of a movie. */
  function MovieRaw(m: Movie): Value {
    MovieRecord(m, DateRaw(m.releaseDate))
  }

  /** The TMDB record of a movie whose release date is sent as `date`. */
  function MovieRecord(m: Movie, date: Value): Value
  {
    Obj(map[
      "id" := m.id, "title" := m.title, "overview" := m.overview,
      "release_date" := date, "poster_path" := m.posterPath,
      "backdrop_path" := m.backdropPath, "vote_average" := m.voteAverage,
      "vote_count" := m.voteCount, "popularity" := m.popularity, "adult" := m.adult,
      "original_language" := m.originalLanguage, "original_title" := m.originalTitle,
      "genre_ids" := m.genreIds])
  }

  /** The record's id, title and overview. */
  lemma MovieRawNames(m: Movie, date: Value)
    ensures GetOpt(MovieRecord(m, date), "id") == m.id
      && GetOpt(MovieRecord(m, date), "title") == m.title
      && GetOpt(MovieRecord(m, date), "overview") == m.overview
  {
  }

  /** The record's original title and language, and its release date text. */
  lemma MovieRawOriginals(m: Movie, date: Value)
    ensures GetOpt(MovieRecord(m, date), "original_title") == m.originalTitle
      && GetOpt(MovieRecord(m, date), "original_language") == m.originalLanguage
      && GetOpt(MovieRecord(m, date), "release_date") == date
  {
  }

  /** The record's image paths. */
  lemma MovieRawImages(m: Movie, date: Value)
    ensures GetOpt(MovieRecord(m, date), "poster_path") == m.posterPath
      && GetOpt(MovieRecord(m, date), "backdrop_path") == m.backdropPath
  {
  }

  /** The record's votes and popularity. */
  lemma MovieRawVotes(m: Movie, date: Value)
    ensures GetOpt(MovieRecord(m, date), "vote_average") == m.voteAverage
      && GetOpt(MovieRecord(m, date), "vote_count") == m.voteCount
      && GetOpt(MovieRecord(m, date), "popularity") == m.popularity
  {
  }

  /** The record's adult flag and genre ids. */
  lemma MovieRawFlags(m: Movie, date: Value)
    ensures GetOpt(MovieRecord(m, date), "adult") == m.adult
      && GetOpt(MovieRecord(m, date), "genre_ids") == m.genreIds
  {
  }

  /** `Movie.create` inverts the record a movie is sent as. */
  lemma CreateMovieOfRaw(m: Movie)
    requires MovieOk(m)
    ensures CreateMovie(MovieRaw(m)) == Ok(m)
  {
    DateFieldOfRaw(m.releaseDate);
    MovieRawNames(m, DateRaw(m.releaseDate));
    MovieRawOriginals(m, DateRaw(m.releaseDate));
    MovieRawImages(m, DateRaw(m.releaseDate));
    MovieRawVotes(m, DateRaw(m.releaseDate));
    MovieRawFlags(m, DateRaw(m.releaseDate));
  }

  /** `getReleaseYear()`: "N/A" without a date, "NaN" for an invalid one, and otherwise a
      numeral that reads back as the date's year. */
  function ReleaseYear(m: Movie): (y: string)
    ensures y == "N/A" <==> m.releaseDate.None?
    ensures y == "NaN" <==> m.releaseDate == Some(InvalidDate)
    ensures m.releaseDate.Some? && m.releaseDate.value.Calendar? ==> ParseInt(y) == Some(m.releaseDate.value.year)
  {
    if m.releaseDate.Some? && m.releaseDate.value.Calendar? then
      ParseIntOfIntToString(m.releaseDate.value.year);
      YearText(m.releaseDate)
    else YearText(m.releaseDate)
  }

  datatype MovieDetails = MovieDetails(
    movie: Movie, runtime: Value, genres: Value, budget: Value, revenue: Value)

  /** `MovieDetails.createDetails(data)`: the movie fields exactly as `Movie.create` reads
      them, plus runtime, genres, budget and revenue copied without defaults. */
  function CreateMovieDetails(data: Value): (r: Result<MovieDetails, Error>)
    ensures r.Err? <==> CreateMovie(data).Err?
    ensures r.Ok? ==> r.value.movie == CreateMovie(data).value
    ensures r.Ok? ==> r.value.runtime == GetOpt(data, "runtime") && r.value.genres == GetOpt(data, "genres")
  {
    var movie :- CreateMovie(data);
    Ok(MovieDetails(movie, GetOpt(data, "runtime"), GetOpt(data, "genres"),
                    GetOpt(data, "budget"), GetOpt(data, "revenue")))
  }

  /** JavaScript `%`: the remainder takes the sign of the dividend. */
  function JsRem(a: int, b: int): (r: int)
    requires b > 0
    ensures a >= 0 ==> 0 <= r < b
    ensures a < 0 ==> -b < r <= 0
  {
    if a >= 0 then a % b else -((-a) % b)
  }

  /** `getFormattedRuntime()`: `N/A` only for `null`; otherwise `Math.floor(runtime / 60)`
      hours and `runtime % 60` minutes, each `NaN` when the runtime is not a number. */
  function FormattedRuntime(runtime: Value): (t: string)
    ensures runtime == Null <==> t == "N/A"
    ensures runtime != Null && ToNumber(runtime).NaN? ==> t == "NaNh NaNm"
    ensures runtime != Null && ToNumber(runtime).Num? && ToNumber(runtime).n >= 0 ==>
      exists h: int, m: int :: (60 * h + m == ToNumber(runtime).n && 0 <= m < 60
        && t == IntToString(h) + "h " + IntToString(m) + "m")
  {
    if runtime == Null then "N/A"
    else match ToNumber(runtime)
      case Num(n) =>
        var h := n / 60;
        var m := JsRem(n, 60);
        assert n >= 0 ==> 60 * h + m == n;
        assert IntToString(h)[0] != 'N';
        IntToString(h) + "h " + IntToString(m) + "m"
      case _ => "NaNh NaNm"
  }

  /** For non-negative runtimes the text determines the runtime. */
  lemma RuntimeTextInjective(a: nat, b: nat)
    requires FormattedRuntime(Num(a)) == FormattedRuntime(Num(b))
    ensures a == b
  {
    var ha, ma := a / 60, a % 60;
    var hb, mb := b / 60, b % 60;
    RuntimeTextOf(a);
    RuntimeTextOf(b);
    NumeralThenNonDigit(IntToString(ha), "h " + IntToString(ma) + "m",
                        IntToString(hb), "h " + IntToString(mb) + "m");
    IntToStringInjective(ha, hb);
    var ra, rb := "h " + IntToString(ma) + "m", "h " + IntToString(mb) + "m";
    assert IntToString(ma) == ra[2..|ra| - 1];
    assert IntToString(mb) == rb[2..|rb| - 1];
    IntToStringInjective(ma, mb);
  }

  lemma RuntimeTextOf(n: nat)
    ensures FormattedRuntime(Num(n)) == IntToString(n / 60) + ("h " + IntToString(n % 60) + "m")
  {
    assert ToNumber(Num(n)) == Num(n);
    assert JsRem(n, 60) == n % 60;
  }

  /** A numeral followed by a non-digit splits back at the first non-digit. */
  lemma NumeralThenNonDigit(s1: string, r1: string, s2: string, r2: string)
    requires AllDigits(s1) && AllDigits(s2)
    requires |r1| > 0 && |r2| > 0 && !IsDigit(r1[0]) && !IsDigit(r2[0])
    requires s1 + r1 == s2 + r2
    ensures s1 == s2 && r1 == r2
  {
    var t := s1 + r1;
    DigitPrefixStops(s1, r1);
    DigitPrefixStops(s2, r2);
    assert r1 == t[|s1|..] == r2;
  }

  /** `genres.map(g => g.name)`: a `TypeError` for a missing genre. */
  function GenreNameValues(items: seq<Value>): (r: Result<seq<Value>, Error>)
    ensures r.Ok? ==> |r.value| == |items|
    ensures r.Ok? ==> forall i :: 0 <= i < |items| ==> r.value[i] == GetOpt(items[i], "name")
    ensures r.Err? <==> exists i :: 0 <= i < |items| && Nullish(items[i])
    decreases |items|
  {
    if |items| == 0 then Ok([])
    else
      var first :- Prop(items[0], "name");
      var rest :- GenreNameValues(items[1..]);
      assert forall i :: 1 <= i < |items| ==> items[i] == items[1..][i - 1];
      Ok([first] + rest)
  }

  /** `getGenreNames()`: the names in order, joined with `", "`. Only an array can be
      mapped; a missing `genres` field is a `TypeError`. */
  function GenreNames(genres: Value): (r: Result<string, Error>)
    ensures !genres.Arr? ==> r.Err?
  {
    match genres
    case Arr(items) =>
      var names :- GenreNameValues(items);
      Ok(JoinValues(names, ", "))
    case _ => Err(TypeError((if Nullish(genres) then ReadOfNullish else "map " + NotAFunction)))
  }

  /** The genre records `{id, name}` for a list of names. */
  function GenreRecords(names: seq<string>): (gs: seq<Value>)
    ensures |gs| == |names|
    ensures forall i :: 0 <= i < |names| ==> gs[i] == Obj(map["id" := Num(i), "name" := Str(names[i])])
  {
    seq(|names|, i requires 0 <= i < |names| => Obj(map["id" := Num(i), "name" := Str(names[i])]))
  }

  /** For well-formed genre records the text is the names joined with `", "`. */
  lemma GenreNamesOfRecords(names: seq<string>)
    ensures GenreNames(Arr(GenreRecords(names))) == Ok(Join(names, ", "))
  {
    var gs := GenreRecords(names);
    var vs := GenreNameValues(gs);
    assert vs.Ok?;
    forall i | 0 <= i < |names| ensures vs.value[i] == StrValues(names)[i] {
      assert GetOpt(gs[i], "name") == Str(names[i]);
    }
    assert vs.value == StrValues(names);
    JoinStrings(names, ", ");
  }

  // ---------------------------------------------------------------- TV shows

  datatype TvShow = TvShow(
    id: Value, name: Value, originalName: Value, overview: Value, firstAirDate: Option<Date>,
    posterPath: Value, backdropPath: Value, genreIds: Value, popularity: Value,
    voteAverage: Value, voteCount: Value, adult: bool, originalLanguage: Value,
    originCountry: Value)

  /** `TvShow.create(data)`: `adult` is coerced with `!!` and `origin_country` defaults to
      `[]`, while `genre_ids` and the votes are copied without defaults. */
  function CreateTvShow(data: Value): (r: Result<TvShow, Error>)
    ensures r.Err? <==> Nullish(data) || DateField(GetOpt(data, "first_air_date")).Err?
    ensures r.Ok? ==> r.value.firstAirDate == DateField(GetOpt(data, "first_air_date")).value
    ensures r.Ok? ==> r.value.adult == Truthy(GetOpt(data, "adult"))
    ensures r.Ok? ==> r.value.genreIds == GetOpt(data, "genre_ids")
    ensures r.Ok? ==> (r.value.originCountry ==
      if Truthy(GetOpt(data, "origin_country")) then GetOpt(data, "origin_country") else Arr([]))
  {
    var fd :- Prop(data, "first_air_date");
    var date :- DateField(fd);
    Ok(TvShow(
      GetOpt(data, "id"), GetOpt(data, "name"), GetOpt(data, "original_name"),
      GetOpt(data, "overview"), date, GetOpt(data, "poster_path"), GetOpt(data, "backdrop_path"),
      GetOpt(data, "genre_ids"), GetOpt(data, "popularity"), GetOpt(data, "vote_average"),
      GetOpt(data, "vote_count"), Truthy(GetOpt(data, "adult")),
      GetOpt(data, "original_language"), Or(GetOpt(data, "origin_country"), Arr([]))))
  }

  predicate TvShowOk(s: TvShow) {
    s.originCountry.Arr? && DateOk(s.firstAirDate)
  }

  /** The TMDB record of a TV show. */
  function TvShowRaw(s: TvShow): Value {
    TvShowRecord(s, DateRaw(s.firstAirDate))
  }

  /** The TMDB record of a TV show whose first air date is sent as `date`. */
  function TvShowRecord(s: TvShow, date: Value): Value
  {
    Obj(map[
      "id" := s.id, "name" := s.name, "original_name" := s.originalName,
      "overview" := s.overview, "first_air_date" := date,
      "poster_path" := s.posterPath, "backdrop_path" := s.backdropPath,
      "genre_ids" := s.genreIds, "popularity" := s.popularity,
      "vote_average" := s.voteAverage, "vote_count" := s.voteCount, "adult" := Bool(s.adult),
      "original_language" := s.originalLanguage, "origin_country" := s.originCountry])
  }

  /** The record's id, name and overview. */
  lemma TvShowRawNames(s: TvShow, date: Value)
    ensures GetOpt(TvShowRecord(s, date), "id") == s.id
      && GetOpt(TvShowRecord(s, date), "name") == s.name
      && GetOpt(TvShowRecord(s, date), "overview") == s.overview
  {
  }

  /** The record's original name and language, and its countries. */
  lemma TvShowRawOriginals(s: TvShow, date: Value)
    ensures GetOpt(TvShowRecord(s, date), "original_name") == s.originalName
      && GetOpt(TvShowRecord(s, date), "original_language") == s.originalLanguage
      && GetOpt(TvShowRecord(s, date), "origin_country") == s.originCountry
  {
  }

  /** The record's first air date text and image paths. */
  lemma TvShowRawMedia(s: TvShow, date: Value)
    ensures GetOpt(TvShowRecord(s, date), "first_air_date") == date
      && GetOpt(TvShowRecord(s, date), "poster_path") == s.posterPath
      && GetOpt(TvShowRecord(s, date), "backdrop_path") == s.backdropPath
  {
  }

  /** The record's votes and popularity. */
  lemma TvShowRawVotes(s: TvShow, date: Value)
    ensures GetOpt(TvShowRecord(s, date), "vote_average") == s.voteAverage
      && GetOpt(TvShowRecord(s, date), "vote_count") == s.voteCount
      && GetOpt(TvShowRecord(s, date), "popularity") == s.popularity
  {
  }

  /** The record's adult flag and genre ids. */
  lemma TvShowRawFlags(s: TvShow, date: Value)
    ensures GetOpt(TvShowRecord(s, date), "adult") == Bool(s.adult)
      && GetOpt(TvShowRecord(s, date), "genre_ids") == s.genreIds
  {
  }

  /** `TvShow.create` inverts the record a show is sent as. */
  lemma CreateTvShowOfRaw(s: TvShow)
    requires TvShowOk(s)
    ensures CreateTvShow(TvShowRaw(s)) == Ok(s)
  {
    DateFieldOfRaw(s.firstAirDate);
    TvShowRawNames(s, DateRaw(s.firstAirDate));
    TvShowRawOriginals(s, DateRaw(s.firstAirDate));
    TvShowRawMedia(s, DateRaw(s.firstAirDate));
    TvShowRawVotes(s, DateRaw(s.firstAirDate));
    TvShowRawFlags(s, DateRaw(s.firstAirDate));
  }

  /** `getFirstAirYear()`: "N/A" without a date, "NaN" for an invalid one, and otherwise a
      numeral that reads back as the date's year. */
  function FirstAirYear(s: TvShow): (y: string)
    ensures y == "N/A" <==> s.firstAirDate.None?
    ensures y == "NaN" <==> s.firstAirDate == Some(InvalidDate)
    ensures s.firstAirDate.Some? && s.firstAirDate.value.Calendar? ==> ParseInt(y) == Some(s.firstAirDate.value.year)
  {
    if s.firstAirDate.Some? && s.firstAirDate.value.Calendar? then
      ParseIntOfIntToString(s.firstAirDate.value.year);
      YearText(s.firstAirDate)
    else YearText(s.firstAirDate)
  }

  datatype TvShowDetails = TvShowDetails(
    show: TvShow, createdBy: Value, episodeRunTime: Value, genres: Value, homepage: Value,
    inProduction: Value, languages: Value, lastAirDate: Option<Date>,
    numberOfEpisodes: Value, numberOfSeasons: Value, networks: Value, status: Value,
    tagline: Value, showType: Value)

  /** `TvShowDetails.createDetails(data)`: the show fields as `TvShow.create` reads them;
      `created_by`, `episode_run_time`, `genres`, `languages` and `networks` default to
      `[]`, and `last_air_date` is parsed like the first air date. */
  function CreateTvShowDetails(data: Value): (r: Result<TvShowDetails, Error>)
    ensures r.Err? <==> CreateTvShow(data).Err? || DateField(GetOpt(data, "last_air_date")).Err?
    ensures r.Ok? ==> r.value.show == CreateTvShow(data).value
    ensures r.Ok? ==> r.value.lastAirDate == DateField(GetOpt(data, "last_air_date")).value
    ensures r.Ok? ==>
      (Defaulted(r.value.createdBy, GetOpt(data, "created_by"))
       && Defaulted(r.value.episodeRunTime, GetOpt(data, "episode_run_time"))
       && Defaulted(r.value.genres, GetOpt(data, "genres"))
       && Defaulted(r.value.languages, GetOpt(data, "languages"))
       && Defaulted(r.value.networks, GetOpt(data, "networks")))
  {
    var show :- CreateTvShow(data);
    var last :- DateField(GetOpt(data, "last_air_date"));
    Ok(TvShowDetails(
      show, Or(GetOpt(data, "created_by"), Arr([])), Or(GetOpt(data, "episode_run_time"), Arr([])),
      Or(GetOpt(data, "genres"), Arr([])), GetOpt(data, "homepage"), GetOpt(data, "in_production"),
      Or(GetOpt(data, "languages"), Arr([])), last, GetOpt(data, "number_of_episodes"),
      GetOpt(data, "number_of_seasons"), Or(GetOpt(data, "networks"), Arr([])),
      GetOpt(data, "status"), GetOpt(data, "tagline"), GetOpt(data, "type")))
  }

  /** A field read as `raw || []`: always truthy, and the raw value itself when that is
      truthy. */
  predicate Defaulted(field: Value, raw: Value) {
    Truthy(field) && (Truthy(raw) ==> field == raw)
  }

  /** `v.length` for the values the model holds. */
  function LengthOf(v: Value): Value {
    match v
    case Arr(items) => Num(|items|)
    case Str(s) => Num(|s|)
    case _ => GetOpt(v, "length")
  }

  /** `getFormattedEpisodeRunTime()`: `N/A` for a missing or empty list, otherwise the run
      times joined with `", "` and followed by `" minutes"`. */
  function EpisodeRunTimeText(times: Value): (r: Result<string, Error>)
    ensures r == Ok("N/A") <==> (!Truthy(times) || LengthOf(times) == Num(0))
    ensures times.Arr? && |times.items| > 0 ==> r == Ok(JoinValues(times.items, ", ") + " minutes")
  {
    if !Truthy(times) || LengthOf(times) == Num(0) then Ok("N/A")
    else match times
      case Arr(items) =>
        var t := JoinValues(items, ", ") + " minutes";
        assert t[|t| - 1] == 's';
        Ok(t)
      case _ => Err(TypeError("join " + NotAFunction))
  }

  /** A single run time prints as its number of minutes. */
  lemma EpisodeRunTimeSingle(n: int)
    ensures EpisodeRunTimeText(Arr([Num(n)])) == Ok(IntToString(n) + " minutes")
  {
    assert ElementText(Num(n)) == ToStr(Num(n)) == IntToString(n);
    assert ElementTexts([Num(n)]) == [IntToString(n)];
    assert Join([IntToString(n)], ", ") == IntToString(n);
  }

  // ---------------------------------------------------------------- people

  datatype Person = Person(
    id: Value, name: Value, biography: Value, birthday: Option<Date>, deathday: Option<Date>,
    gender: Value, profilePath: Value, knownForDepartment: Value, placeOfBirth: Value,
    popularity: Value, adult: bool, alsoKnownAs: Value, homepage: Value, imdbId: Value)

  /** `Person.create(data)`: both dates parsed, `adult` coerced with `!!`, and
      `also_known_as` copied without a default. */
  function CreatePerson(data: Value): (r: Result<Person, Error>)
    ensures r.Err? <==> Nullish(data) || DateField(GetOpt(data, "birthday")).Err? || DateField(GetOpt(data, "deathday")).Err?
    ensures r.Ok? ==> r.value.birthday == DateField(GetOpt(data, "birthday")).value
    ensures r.Ok? ==> r.value.deathday == DateField(GetOpt(data, "deathday")).value
    ensures r.Ok? ==> r.value.adult == Truthy(GetOpt(data, "adult"))
    ensures r.Ok? ==> r.value.alsoKnownAs == GetOpt(data, "also_known_as")
  {
    var b :- Prop(data, "birthday");
    var birthday :- DateField(b);
    var deathday :- DateField(GetOpt(data, "deathday"));
    Ok(Person(
      GetOpt(data, "id"), GetOpt(data, "name"), GetOpt(data, "biography"), birthday, deathday,
      GetOpt(data, "gender"), GetOpt(data, "profile_path"), GetOpt(data, "known_for_department"),
      GetOpt(data, "place_of_birth"), GetOpt(data, "popularity"), Truthy(GetOpt(data, "adult")),
      GetOpt(data, "also_known_as"), GetOpt(data, "homepage"), GetOpt(data, "imdb_id")))
  }

  predicate PersonOk(p: Person) {
    DateOk(p.birthday) && DateOk(p.deathday)
  }

  /** The TMDB record of a person. */
  function PersonRaw(p: Person): Value {
    PersonRecord(p, DateRaw(p.birthday), DateRaw(p.deathday))
  }

  /** The TMDB record of a person whose dates are sent as `birth` and `death`. */
  function PersonRecord(p: Person, birth: Value, death: Value): Value
  {
    Obj(map[
      "id" := p.id, "name" := p.name, "biography" := p.biography,
      "birthday" := birth, "deathday" := death,
      "gender" := p.gender, "profile_path" := p.profilePath,
      "known_for_department" := p.knownForDepartment, "place_of_birth" := p.placeOfBirth,
      "popularity" := p.popularity, "adult" := Bool(p.adult),
      "also_known_as" := p.alsoKnownAs, "homepage" := p.homepage, "imdb_id" := p.imdbId])
  }

  /** The record's id, name and biography. */
  lemma PersonRawNames(p: Person, birth: Value, death: Value)
    ensures GetOpt(PersonRecord(p, birth, death), "id") == p.id
      && GetOpt(PersonRecord(p, birth, death), "name") == p.name
      && GetOpt(PersonRecord(p, birth, death), "biography") == p.biography
  {
  }

  /** The record's date texts and gender. */
  lemma PersonRawDates(p: Person, birth: Value, death: Value)
    ensures GetOpt(PersonRecord(p, birth, death), "birthday") == birth
      && GetOpt(PersonRecord(p, birth, death), "deathday") == death
      && GetOpt(PersonRecord(p, birth, death), "gender") == p.gender
  {
  }

  /** The record's department, birthplace and popularity. */
  lemma PersonRawCareer(p: Person, birth: Value, death: Value)
    ensures GetOpt(PersonRecord(p, birth, death), "known_for_department") == p.knownForDepartment
      && GetOpt(PersonRecord(p, birth, death), "place_of_birth") == p.placeOfBirth
      && GetOpt(PersonRecord(p, birth, death), "popularity") == p.popularity
  {
  }

  /** The record's profile path, home page and IMDb id. */
  lemma PersonRawLinks(p: Person, birth: Value, death: Value)
    ensures GetOpt(PersonRecord(p, birth, death), "profile_path") == p.profilePath
      && GetOpt(PersonRecord(p, birth, death), "homepage") == p.homepage
      && GetOpt(PersonRecord(p, birth, death), "imdb_id") == p.imdbId
  {
  }

  /** The record's adult flag and other names. */
  lemma PersonRawFlags(p: Person, birth: Value, death: Value)
    ensures GetOpt(PersonRecord(p, birth, death), "adult") == Bool(p.adult)
      && GetOpt(PersonRecord(p, birth, death), "also_known_as") == p.alsoKnownAs
  {
  }

  /** `Person.create` inverts the record a person is sent as. */
  lemma CreatePersonOfRaw(p: Person)
    requires PersonOk(p)
    ensures CreatePerson(PersonRaw(p)) == Ok(p)
  {
    DateFieldOfRaw(p.birthday);
    DateFieldOfRaw(p.deathday);
    PersonRawNames(p, DateRaw(p.birthday), DateRaw(p.deathday));
    PersonRawDates(p, DateRaw(p.birthday), DateRaw(p.deathday));
    PersonRawCareer(p, DateRaw(p.birthday), DateRaw(p.deathday));
    PersonRawLinks(p, DateRaw(p.birthday), DateRaw(p.deathday));
    PersonRawFlags(p, DateRaw(p.birthday), DateRaw(p.deathday));
  }

  /** `getGenderText()`: the `switch` compares with `===`, so only the numbers 1 and 2 are
      recognised. */
  function GenderText(gender: Value): (t: string)
    ensures t == "Female" <==> gender == Num(1)
    ensures t == "Male" <==> gender == Num(2)
    ensures t == "Not specified" <==> gender !in {Num(1), Num(2)}
  {
    match gender
    case Num(1) => "Female"
    case Num(2) => "Male"
    case _ => "Not specified"
  }

  /** `getAge()` with the current date passed in: `null` without a birthday; otherwise the
      completed years up to the death day, or up to today for a living person. */
  function Age(p: Person, today: Date): (a: Value)
    ensures p.birthday.None? <==> a == Null
    ensures a.Null? || a.Num? || a.NaN?
  {
    if p.birthday.None? then Null
    else
      var reference := if p.deathday.Some? then p.deathday.value else today;
      match (p.birthday.value, reference)
      case (Calendar(yb, mb, db), Calendar(yr, mr, dr)) =>
        var age := yr - yb;
        var m := mr - mb;
        Num(if m < 0 || (m == 0 && dr < db) then age - 1 else age)
      case _ => NaN
  }

  /** The age is the number of birthdays reached: the anniversary `age` years after the birth falls on or
      before the reference day and the next one after it. So a reference on or after the
      birthday gives a non-negative age. */
  lemma AgeIsCompletedYears(p: Person, today: Date)
    requires p.birthday.Some? && p.birthday.value.Calendar?
    requires (if p.deathday.Some? then p.deathday.value else today).Calendar?
    ensures var r := if p.deathday.Some? then p.deathday.value else today;
      var b := p.birthday.value;
      var a := Age(p, today);
      && a.Num?
      && OnOrBefore(b.year + a.n, b.month, b.day, r.year, r.month, r.day)
      && !OnOrBefore(b.year + a.n + 1, b.month, b.day, r.year, r.month, r.day)
      && (OnOrBefore(b.year, b.month, b.day, r.year, r.month, r.day) ==> a.n >= 0)
  {
  }

  /** A missing or invalid date on either side makes the age `NaN`, never a number. */
  lemma AgeOfInvalid(p: Person, today: Date)
    requires p.birthday == Some(InvalidDate) || p.deathday == Some(InvalidDate)
    requires p.birthday.Some?
    ensures Age(p, today) == NaN
  {
  }
}
