/** The search filter vocabulary: the enumerations the TMDB API accepts, each with the code
    it is sent as and a decoder back from that code, and the field names of the three
    filter records. A filter record itself is a plain JavaScript object, modelled as
    `Query.Params`. */
module Filters {
  import opened Wrappers
  import opened Strings
  import opened Js

  // ---------------------------------------------------------------- movie sort orders

  datatype SortBy =
    | PopularityAsc | PopularityDesc
    | ReleaseDateAsc | ReleaseDateDesc
    | RevenueAsc | RevenueDesc
    | PrimaryReleaseDateAsc | PrimaryReleaseDateDesc
    | OriginalTitleAsc | OriginalTitleDesc
    | VoteAverageAsc | VoteAverageDesc
    | VoteCountAsc | VoteCountDesc

  /** The fields a movie list can be sorted by. */
  const SortFields: seq<string> :=
    ["popularity", "release_date", "revenue", "primary_release_date", "original_title",
     "vote_average", "vote_count"]

  /** The string each movie sort order is sent as. */
  function SortByCode(s: SortBy): string {
    match s
    case PopularityAsc => "popularity.asc"
    case PopularityDesc => "popularity.desc"
    case ReleaseDateAsc => "release_date.asc"
    case ReleaseDateDesc => "release_date.desc"
    case RevenueAsc => "revenue.asc"
    case RevenueDesc => "revenue.desc"
    case PrimaryReleaseDateAsc => "primary_release_date.asc"
    case PrimaryReleaseDateDesc => "primary_release_date.desc"
    case OriginalTitleAsc => "original_title.asc"
    case OriginalTitleDesc => "original_title.desc"
    case VoteAverageAsc => "vote_average.asc"
    case VoteAverageDesc => "vote_average.desc"
    case VoteCountAsc => "vote_count.asc"
    case VoteCountDesc => "vote_count.desc"
  }

  /** The order a code names, if any. */
  function ParseSortBy(code: string): (r: Option<SortBy>)
    ensures r.Some? ==> SortByCode(r.value) == code
  {
    match code
    case "popularity.asc" => Some(PopularityAsc)
    case "popularity.desc" => Some(PopularityDesc)
    case "release_date.asc" => Some(ReleaseDateAsc)
    case "release_date.desc" => Some(ReleaseDateDesc)
    case "revenue.asc" => Some(RevenueAsc)
    case "revenue.desc" => Some(RevenueDesc)
    case "primary_release_date.asc" => Some(PrimaryReleaseDateAsc)
    case "primary_release_date.desc" => Some(PrimaryReleaseDateDesc)
    case "original_title.asc" => Some(OriginalTitleAsc)
    case "original_title.desc" => Some(OriginalTitleDesc)
    case "vote_average.asc" => Some(VoteAverageAsc)
    case "vote_average.desc" => Some(VoteAverageDesc)
    case "vote_count.asc" => Some(VoteCountAsc)
    case "vote_count.desc" => Some(VoteCountDesc)
    case _ => None
  }

  /** Every code decodes to its own order, so distinct orders have distinct codes. */
  lemma SortByRoundTrip(s: SortBy)
    ensures ParseSortBy(SortByCode(s)) == Some(s)
  {
  }

  lemma SortByCodesDistinct(s: SortBy, t: SortBy)
    requires SortByCode(s) == SortByCode(t)
    ensures s == t
  {
    SortByRoundTrip(s);
    SortByRoundTrip(t);
  }

  /** Every code is a sort field, a dot and a direction. */
  lemma SortByShape(s: SortBy)
    ensures exists i, dir :: (0 <= i < |SortFields| && dir in {"asc", "desc"} &&
      SortByCode(s) == SortFields[i] + "." + dir)
  {
    SortByCodeParts(s);
    var parts := SortByParts(s);
  }

  /** The field and direction of an order, as indices into the tables above. */
  function SortByParts(s: SortBy): (r: (nat, string))
    ensures r.0 < |SortFields| && r.1 in {"asc", "desc"}
  {
    match s
    case PopularityAsc => (0, "asc")
    case PopularityDesc => (0, "desc")
    case ReleaseDateAsc => (1, "asc")
    case ReleaseDateDesc => (1, "desc")
    case RevenueAsc => (2, "asc")
    case RevenueDesc => (2, "desc")
    case PrimaryReleaseDateAsc => (3, "asc")
    case PrimaryReleaseDateDesc => (3, "desc")
    case OriginalTitleAsc => (4, "asc")
    case OriginalTitleDesc => (4, "desc")
    case VoteAverageAsc => (5, "asc")
    case VoteAverageDesc => (5, "desc")
    case VoteCountAsc => (6, "asc")
    case VoteCountDesc => (6, "desc")
  }

  /** The ascending codes are their field and `.asc`. */
  lemma SortByCodeAsc(s: SortBy)
    requires SortByParts(s).1 == "asc"
    ensures SortByCode(s) == SortFields[SortByParts(s).0] + ".asc"
  {
  }

  /** The descending codes are their field and `.desc`. */
  lemma SortByCodeDesc(s: SortBy)
    requires SortByParts(s).1 == "desc"
    ensures SortByCode(s) == SortFields[SortByParts(s).0] + ".desc"
  {
  }

  /** Every code is its field, a dot and its direction. */
  lemma SortByCodeParts(s: SortBy)
    ensures SortByCode(s) == SortFields[SortByParts(s).0] + "." + SortByParts(s).1
  {
    var (i, dir) := SortByParts(s);
    if dir == "asc" {
      SortByCodeAsc(s);
      assert SortFields[i] + ".asc" == SortFields[i] + "." + dir;
    } else {
      SortByCodeDesc(s);
      assert SortFields[i] + ".desc" == SortFields[i] + "." + dir;
    }
  }

  /** The order for a field index and a direction: every sort field can be sent in both
      directions. */
  function SortByOfParts(i: nat, dir: string): (s: SortBy)
    requires i < |SortFields| && dir in {"asc", "desc"}
    ensures SortByParts(s) == (i, dir)
    ensures SortByCode(s) == SortFields[i] + "." + dir
  {
    var asc := dir == "asc";
    var s := if i == 0 then (if asc then PopularityAsc else PopularityDesc)
    else if i == 1 then (if asc then ReleaseDateAsc else ReleaseDateDesc)
    else if i == 2 then (if asc then RevenueAsc else RevenueDesc)
    else if i == 3 then (if asc then PrimaryReleaseDateAsc else PrimaryReleaseDateDesc)
    else if i == 4 then (if asc then OriginalTitleAsc else OriginalTitleDesc)
    else if i == 5 then (if asc then VoteAverageAsc else VoteAverageDesc)
    else (if asc then VoteCountAsc else VoteCountDesc);
    SortByCodeParts(s);
    s
  }

  // ---------------------------------------------------------------- TV sort orders

  datatype TvSortBy =
    | TvVoteAverageDesc | TvVoteAverageAsc
    | FirstAirDateDesc | FirstAirDateAsc
    | TvPopularityDesc | TvPopularityAsc

  const TvSortFields: seq<string> := ["vote_average", "first_air_date", "popularity"]

  function TvSortByCode(s: TvSortBy): string {
    match s
    case TvVoteAverageDesc => "vote_average.desc"
    case TvVoteAverageAsc => "vote_average.asc"
    case FirstAirDateDesc => "first_air_date.desc"
    case FirstAirDateAsc => "first_air_date.asc"
    case TvPopularityDesc => "popularity.desc"
    case TvPopularityAsc => "popularity.asc"
  }

  function ParseTvSortBy(code: string): (r: Option<TvSortBy>)
    ensures r.Some? ==> TvSortByCode(r.value) == code
  {
    match code
    case "vote_average.desc" => Some(TvVoteAverageDesc)
    case "vote_average.asc" => Some(TvVoteAverageAsc)
    case "first_air_date.desc" => Some(FirstAirDateDesc)
    case "first_air_date.asc" => Some(FirstAirDateAsc)
    case "popularity.desc" => Some(TvPopularityDesc)
    case "popularity.asc" => Some(TvPopularityAsc)
    case _ => None
  }

  lemma TvSortByRoundTrip(s: TvSortBy)
    ensures ParseTvSortBy(TvSortByCode(s)) == Some(s)
  {
  }

  /** The field index and direction of a TV order. */
  function TvSortByParts(s: TvSortBy): (r: (nat, string))
    ensures r.0 < |TvSortFields| && r.1 in {"asc", "desc"}
    ensures TvSortByCode(s) == TvSortFields[r.0] + "." + r.1
  {
    match s
    case TvVoteAverageDesc => (0, "desc")
    case TvVoteAverageAsc => (0, "asc")
    case FirstAirDateDesc => (1, "desc")
    case FirstAirDateAsc => (1, "asc")
    case TvPopularityDesc => (2, "desc")
    case TvPopularityAsc => (2, "asc")
  }

  function TvSortByOfParts(i: nat, dir: string): (s: TvSortBy)
    requires i < |TvSortFields| && dir in {"asc", "desc"}
    ensures TvSortByParts(s) == (i, dir)
    ensures TvSortByCode(s) == TvSortFields[i] + "." + dir
  {
    var asc := dir == "asc";
    if i == 0 then (if asc then TvVoteAverageAsc else TvVoteAverageDesc)
    else if i == 1 then (if asc then FirstAirDateAsc else FirstAirDateDesc)
    else (if asc then TvPopularityAsc else TvPopularityDesc)
  }

  /** The TV codes are exactly the two directions of three fields. */
  lemma TvSortByExactly(code: string)
    ensures ParseTvSortBy(code).Some? <==>
      exists i, dir :: (0 <= i < |TvSortFields| && dir in {"asc", "desc"} && code == TvSortFields[i] + "." + dir)
  {
    if ParseTvSortBy(code).Some? {
      var parts := TvSortByParts(ParseTvSortBy(code).value);
    }
    if exists i, dir :: (0 <= i < |TvSortFields| && dir in {"asc", "desc"} && code == TvSortFields[i] + "." + dir) {
      var i, dir :| 0 <= i < |TvSortFields| && dir in {"asc", "desc"} && code == TvSortFields[i] + "." + dir;
      TvSortByRoundTrip(TvSortByOfParts(i, dir));
    }
  }

  /** The movie order sharing a TV order's code: the vote-average and popularity codes are
      common to both lists, the first-air-date codes are TV only. */
  function MovieSortOf(s: TvSortBy): (m: Option<SortBy>)
    ensures m.Some? ==> SortByCode(m.value) == TvSortByCode(s)
    ensures m.None? ==> ParseSortBy(TvSortByCode(s)).None?
  {
    match s
    case TvVoteAverageDesc => Some(VoteAverageDesc)
    case TvVoteAverageAsc => Some(VoteAverageAsc)
    case FirstAirDateDesc => None
    case FirstAirDateAsc => None
    case TvPopularityDesc => Some(PopularityDesc)
    case TvPopularityAsc => Some(PopularityAsc)
  }

  // ---------------------------------------------------------------- numeric codes

  datatype ReleaseType = Premiere | TheatricalLimited | Theatrical | Digital | Physical | TV

  function ReleaseTypeCode(t: ReleaseType): (c: int)
    ensures 1 <= c <= 6
  {
    match t
    case Premiere => 1
    case TheatricalLimited => 2
    case Theatrical => 3
    case Digital => 4
    case Physical => 5
    case TV => 6
  }

  /** Exactly the codes 1 to 6 name release types. */
  function ReleaseTypeOf(c: int): (r: Option<ReleaseType>)
    ensures r.Some? <==> 1 <= c <= 6
    ensures r.Some? ==> ReleaseTypeCode(r.value) == c
  {
    if c == 1 then Some(Premiere)
    else if c == 2 then Some(TheatricalLimited)
    else if c == 3 then Some(Theatrical)
    else if c == 4 then Some(Digital)
    else if c == 5 then Some(Physical)
    else if c == 6 then Some(TV)
    else None
  }

  lemma ReleaseTypeRoundTrip(t: ReleaseType)
    ensures ReleaseTypeOf(ReleaseTypeCode(t)) == Some(t)
  {
  }

  datatype TvStatus = ReturningSeries | Planned | InProduction | Ended | Cancelled | Pilot

  function TvStatusCode(s: TvStatus): (c: int)
    ensures 0 <= c <= 5
  {
    match s
    case ReturningSeries => 0
    case Planned => 1
    case InProduction => 2
    case Ended => 3
    case Cancelled => 4
    case Pilot => 5
  }

  function TvStatusOf(c: int): (r: Option<TvStatus>)
    ensures r.Some? <==> 0 <= c <= 5
    ensures r.Some? ==> TvStatusCode(r.value) == c
  {
    if c == 0 then Some(ReturningSeries)
    else if c == 1 then Some(Planned)
    else if c == 2 then Some(InProduction)
    else if c == 3 then Some(Ended)
    else if c == 4 then Some(Cancelled)
    else if c == 5 then Some(Pilot)
    else None
  }

  lemma TvStatusRoundTrip(s: TvStatus)
    ensures TvStatusOf(TvStatusCode(s)) == Some(s)
  {
  }

  datatype TvType = Documentary | News | Miniseries | Reality | Scripted | TalkShow | Video

  function TvTypeCode(t: TvType): (c: int)
    ensures 0 <= c <= 6
  {
    match t
    case Documentary => 0
    case News => 1
    case Miniseries => 2
    case Reality => 3
    case Scripted => 4
    case TalkShow => 5
    case Video => 6
  }

  function TvTypeOf(c: int): (r: Option<TvType>)
    ensures r.Some? <==> 0 <= c <= 6
    ensures r.Some? ==> TvTypeCode(r.value) == c
  {
    if c == 0 then Some(Documentary)
    else if c == 1 then Some(News)
    else if c == 2 then Some(Miniseries)
    else if c == 3 then Some(Reality)
    else if c == 4 then Some(Scripted)
    else if c == 5 then Some(TalkShow)
    else if c == 6 then Some(Video)
    else None
  }

  lemma TvTypeRoundTrip(t: TvType)
    ensures TvTypeOf(TvTypeCode(t)) == Some(t)
  {
  }

  // ---------------------------------------------------------------- string codes

  datatype WatchMonetizationType = Flatrate | Free | Ads | Rent | Buy

  function MonetizationCode(m: WatchMonetizationType): string {
    match m
    case Flatrate => "flatrate"
    case Free => "free"
    case Ads => "ads"
    case Rent => "rent"
    case Buy => "buy"
  }

  function ParseMonetization(code: string): (r: Option<WatchMonetizationType>)
    ensures r.Some? ==> MonetizationCode(r.value) == code
  {
    match code
    case "flatrate" => Some(Flatrate)
    case "free" => Some(Free)
    case "ads" => Some(Ads)
    case "rent" => Some(Rent)
    case "buy" => Some(Buy)
    case _ => None
  }

  lemma MonetizationRoundTrip(m: WatchMonetizationType)
    ensures ParseMonetization(MonetizationCode(m)) == Some(m)
  {
  }

  datatype TimeWindow = Day | Week

  function TimeWindowCode(w: TimeWindow): string {
    match w
    case Day => "day"
    case Week => "week"
  }

  function ParseTimeWindow(code: string): (r: Option<TimeWindow>)
    ensures r.Some? <==> code in {"day", "week"}
    ensures r.Some? ==> TimeWindowCode(r.value) == code
  {
    match code
    case "day" => Some(Day)
    case "week" => Some(Week)
    case _ => None
  }

  lemma TimeWindowRoundTrip(w: TimeWindow)
    ensures ParseTimeWindow(TimeWindowCode(w)) == Some(w)
  {
  }

  datatype MediaType = All | Movie | Tv | Person

  function MediaTypeCode(m: MediaType): string {
    match m
    case All => "all"
    case Movie => "movie"
    case Tv => "tv"
    case Person => "person"
  }

  function ParseMediaType(code: string): (r: Option<MediaType>)
    ensures r.Some? <==> code in {"all", "movie", "tv", "person"}
    ensures r.Some? ==> MediaTypeCode(r.value) == code
  {
    match code
    case "all" => Some(All)
    case "movie" => Some(Movie)
    case "tv" => Some(Tv)
    case "person" => Some(Person)
    case _ => None
  }

  lemma MediaTypeRoundTrip(m: MediaType)
    ensures ParseMediaType(MediaTypeCode(m)) == Some(m)
  {
  }

  // ---------------------------------------------------------------- filter values

  /** An array of release types, as a filter record holds it. */
  function ReleaseTypesValue(ts: seq<ReleaseType>): (v: Value)
    ensures v.Arr? && |v.items| == |ts|
    ensures forall i :: 0 <= i < |ts| ==> v.items[i] == Num(ReleaseTypeCode(ts[i]))
  {
    Arr(seq(|ts|, i requires 0 <= i < |ts| => Num(ReleaseTypeCode(ts[i]))))
  }

  /** An array of monetization types, as a filter record holds it. */
  function MonetizationsValue(ms: seq<WatchMonetizationType>): (v: Value)
    ensures v.Arr? && |v.items| == |ms|
    ensures forall i :: 0 <= i < |ms| ==> v.items[i] == Str(MonetizationCode(ms[i]))
  {
    Arr(seq(|ms|, i requires 0 <= i < |ms| => Str(MonetizationCode(ms[i]))))
  }

  /** The fields of each filter record, in declaration order. */
  const SearchFilterFields: seq<string> :=
    ["query", "page", "includeAdult", "region", "year", "primaryReleaseYear", "language"]

  const DiscoverMovieFilterFields: seq<string> :=
    ["page", "language", "region", "sortBy", "includeAdult", "includeVideo",
     "primaryReleaseYear", "primaryReleaseDateGte", "primaryReleaseDateLte",
     "releaseDateGte", "releaseDateLte", "withReleaseType", "year",
     "voteCountGte", "voteCountLte", "voteAverageGte", "voteAverageLte",
     "withCast", "withCrew", "withPeople", "withCompanies", "withGenres", "withoutGenres",
     "withKeywords", "withoutKeywords", "withRuntimeGte", "withRuntimeLte",
     "withOriginalLanguage", "withWatchProviders", "watchRegion",
     "withWatchMonetizationTypes", "withoutCompanies"]

  const DiscoverTvFilterFields: seq<string> :=
    ["page", "language", "sortBy", "airDateGte", "airDateLte", "firstAirDateGte",
     "firstAirDateLte", "firstAirDateYear", "timezone", "voteAverageGte", "voteCountGte",
     "withGenres", "withNetworks", "withoutGenres", "withRuntimeGte", "withRuntimeLte",
     "includeNullFirstAirDates", "withOriginalLanguage", "withoutKeywords",
     "screened_theatrically", "withCompanies", "withKeywords", "withWatchProviders",
     "watchRegion", "withWatchMonetizationTypes", "withStatus", "withType",
     "withoutCompanies"]
}
