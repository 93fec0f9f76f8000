/** The interactive console menu without its prompting: the validators of the free-text
    answers, the choices of every menu and the controller call each choice or form leads to.
    A prompt whose answer a validator rejects is asked again, so a form reaches the
    controller only with answers every validator accepts. */
module InteractiveMenu {
  import opened Wrappers
  import opened Strings
  import Filters
  import MovieRepository
  import TvShowRepository

  // ---------------------------------------------------------------- validators

  /** An inquirer `validate` result: `true`, or the message shown before asking again. */
  datatype Verdict = Accept | Reject(message: string)

  const QueryMessage: string := "Please enter a search query"
  const YearMessage: string := "Please enter a valid year"
  const NumberMessage: string := "Please enter a valid number"
  const MovieIdMessage: string := "Please enter a valid movie ID"
  const TvIdMessage: string := "Please enter a valid TV show ID"
  const PersonIdMessage: string := "Please enter a valid person ID"

  /** `/^\d+$/`: one or more decimal digits and nothing else. */
  predicate Digits(s: string) {
    s != "" && AllDigits(s)
  }

  /** The query validator: anything but blank input. */
  function CheckQuery(input: string): (v: Verdict)
    ensures v.Accept? <==> exists k :: 0 <= k < |input| && !IsWhite(input[k])
    ensures v.Reject? ==> v.message == QueryMessage
  {
    TrimEmptyIffWhite(input);
    if Trim(input) != "" then Accept else Reject(QueryMessage)
  }

  /** The year validator: empty (no year) or exactly four digits. */
  function CheckYear(input: string): (v: Verdict)
    ensures v.Accept? <==> input == "" || (|input| == 4 && AllDigits(input))
    ensures v.Reject? ==> v.message == YearMessage
  {
    if input == "" || (|input| == 4 && Digits(input)) then Accept else Reject(YearMessage)
  }

  /** The ID validator, with the message of the kind of ID asked for: digits only. */
  function CheckId(input: string, message: string): (v: Verdict)
    ensures v.Accept? <==> input != "" && forall k :: 0 <= k < |input| ==> IsDigit(input[k])
    ensures v.Reject? ==> v.message == message
  {
    if Digits(input) then Accept else Reject(message)
  }

  /** `/^\d+(\.\d+)?$/`: digits, optionally followed by a point and more digits. */
  predicate Decimal(s: string) {
    match IndexOf(s, '.')
    case None => Digits(s)
    case Some(k) => Digits(s[..k]) && Digits(s[k + 1..])
  }

  /** Digits, one point, and digits again. */
  predicate Pointed(s: string) {
    exists k :: 0 < k < |s| - 1 && s[k] == '.' && Digits(s[..k]) && Digits(s[k + 1..])
  }

  /** The two alternatives of the pattern: an integer, or an integer part and a fraction. */
  lemma DecimalAlternatives(s: string)
    ensures Decimal(s) <==> Digits(s) || Pointed(s)
  {
    if Pointed(s) {
      var k :| 0 < k < |s| - 1 && s[k] == '.' && Digits(s[..k]) && Digits(s[k + 1..]);
      IndexOfPoint(s[..k], s[k + 1..]);
      assert s == s[..k] + "." + s[k + 1..];
    }
    if Decimal(s) && IndexOf(s, '.').Some? {
      var p := IndexOf(s, '.').value;
      assert s[..p] != "" && s[p + 1..] != "";
    }
  }

  /** The vote-average validator: empty or a decimal number without sign or exponent. */
  function CheckVoteAverage(input: string): (v: Verdict)
    ensures v.Accept? <==> input == "" || Digits(input) || Pointed(input)
    ensures v.Accept? ==> forall k :: 0 <= k < |input| && input[k] != '.' ==> IsDigit(input[k])
    ensures v.Accept? && input != "" ==> IsDigit(input[0]) && IsDigit(input[|input| - 1])
    ensures v.Reject? ==> v.message == NumberMessage
  {
    DecimalAlternatives(input);
    if input == "" || Decimal(input) then
      DecimalShape(input);
      Accept
    else Reject(NumberMessage)
  }

  /** The vote-count validator: empty or digits only. */
  function CheckVoteCount(input: string): (v: Verdict)
    ensures v.Accept? <==> input == "" || forall k :: 0 <= k < |input| ==> IsDigit(input[k])
    ensures v.Reject? ==> v.message == NumberMessage
  {
    if input == "" || Digits(input) then Accept else Reject(NumberMessage)
  }

  /** A decimal number starts and ends with a digit and has digits everywhere but at its
      one point. */
  lemma DecimalShape(s: string)
    requires s == "" || Decimal(s)
    ensures forall k :: 0 <= k < |s| && s[k] != '.' ==> IsDigit(s[k])
    ensures s != "" ==> IsDigit(s[0]) && IsDigit(s[|s| - 1])
  {
    if s != "" {
      match IndexOf(s, '.')
      case None =>
      case Some(p) =>
        assert s == s[..p] + "." + s[p + 1..];
        assert s[0] == s[..p][0];
        assert s[|s| - 1] == s[p + 1..][|s| - p - 2];
        forall k | 0 <= k < |s| && s[k] != '.'
          ensures IsDigit(s[k])
        {
          if k < p {
            assert s[k] == s[..p][k];
          } else {
            assert s[k] == s[p + 1..][k - p - 1];
          }
        }
    }
  }

  /** A point that follows a run of digits is the first point. */
  lemma IndexOfPoint(a: string, b: string)
    requires AllDigits(a)
    ensures IndexOf(a + "." + b, '.') == Some(|a|)
  {
    var s := a + "." + b;
    assert s[|a|] == '.';
  }

  /** Every valid vote count is a valid vote average. */
  lemma CountIsAverage(input: string)
    requires CheckVoteCount(input).Accept?
    ensures CheckVoteAverage(input).Accept?
  {
    if input != "" {
      assert !IsDigit('.');
      assert '.' !in input;
    }
  }

  /** Printed naturals joined by a point make a valid vote average. */
  lemma AverageOfParts(whole: nat, fraction: nat)
    ensures CheckVoteAverage(NatToString(whole) + "." + NatToString(fraction)).Accept?
  {
    var a := NatToString(whole);
    var b := NatToString(fraction);
    var s := a + "." + b;
    assert s[..|a|] == a && s[|a| + 1..] == b && s[|a|] == '.';
  }

  /** `parseInt` reads a run of digits as the number it denotes. */
  lemma ParseDigits(s: string)
    requires Digits(s)
    ensures ParseInt(s) == Some(DigitsValue(s))
  {
    DigitNotWhite(s[0]);
    assert SkipWhite(s, 0) == 0;
    assert s[0..] == s;
    DigitPrefixAll(s);
  }

  /** Every non-negative number is an acceptable ID, and it reaches the controller as the
      number itself. */
  lemma IdOfNat(n: nat, message: string)
    ensures CheckId(NatToString(n), message).Accept?
    ensures ParseInt(NatToString(n)) == Some(n)
  {
    ParseDigits(NatToString(n));
    NatToStringRoundTrip(n);
  }

  /** A number from `10^k` up to below `10^(k+1)` prints with `k + 1` digits. */
  lemma {:induction false} NatToStringWidth(n: nat, k: nat)
    requires Pow10(k) <= n < Pow10(k + 1)
    ensures |NatToString(n)| == k + 1
    decreases k
  {
    if k > 0 {
      assert n >= 10;
      assert Pow10(k - 1) <= n / 10 < Pow10(k);
      NatToStringWidth(n / 10, k - 1);
    }
  }

  /** Every four-digit year passes the year validator. */
  lemma FourDigitYearsAccepted(y: int)
    requires 1000 <= y <= 9999
    ensures CheckYear(IntToString(y)).Accept?
  {
    assert Pow10(3) == 1000 && Pow10(4) == 10000;
    NatToStringWidth(y, 3);
  }

  /** A non-empty year the validator accepts parses to a number of at most four digits. */
  lemma AcceptedYearsParse(input: string)
    requires CheckYear(input).Accept? && input != ""
    ensures ParseInt(input).Some? && 0 <= ParseInt(input).value <= 9999
  {
    assert Pow10(4) == 10000;
    ParseDigits(input);
    DigitsValueBound(input);
  }

  // ---------------------------------------------------------------- menus and forms

  /** The free-text answers of the discovery form, spread into the controller's options. */
  datatype DiscoverAnswers = DiscoverAnswers(year: string, genres: string, sort: string,
                                             voteAverage: string, voteCount: string)

  /** The controller methods the menu calls, with their arguments. */
  datatype ControllerCall =
    | SearchMovies(query: string, year: string, adult: bool, page: string)
    | SearchTvShows(query: string, year: string, adult: bool, page: string)
    | SearchPeople(query: string, adult: bool, page: string)
    | MultiSearch(query: string, adult: bool, page: string)
    | DiscoverMovies(answers: DiscoverAnswers, page: string)
    | DiscoverTvShows(answers: DiscoverAnswers, page: string)
    | GetMovieDetails(id: int)
    | GetTvShowDetails(id: int)
    | GetPersonDetails(id: int)
    | GetPersonCredits(id: int, tv: bool)
    | GetMovieList(movieList: MovieRepository.MovieList, page: string)
    | GetTvList(tvList: TvShowRepository.TvList, page: string)
    | GetPopularPeople(page: string)
    | GetTrending(mediaType: Filters.MediaType, timeWindow: Filters.TimeWindow, page: string)

  /** The page a call asks for; lookups by ID take none. */
  function PageOf(call: ControllerCall): Option<string> {
    match call
    case GetMovieDetails(_) => None
    case GetTvShowDetails(_) => None
    case GetPersonDetails(_) => None
    case GetPersonCredits(_, _) => None
    case _ => Some(call.page)
  }

  /** The menus that offer a choice. */
  datatype Menu = MoviesMenu | TvShowsMenu | PeopleMenu | ListsMenu | MovieListsMenu | TvListsMenu | AdvancedMenu

  /** The forms whose answers become a controller call. */
  datatype Form =
    | MovieTitleForm | MovieDiscoverForm | MovieIdForm
    | TvTitleForm | TvDiscoverForm | TvIdForm
    | PersonNameForm | PersonIdForm | PersonCreditsForm(tv: bool)
    | MultiSearchForm | TrendingForm

  /** What a choice leads to: leaving the program, back to the main menu, another menu, a
      form, or a controller call. */
  datatype Step = Exit | Done | Open(menu: Menu) | Ask(form: Form) | Invoke(call: ControllerCall)

  /** The main menu; an unknown action shows the main menu again. */
  function MainStep(action: string): (s: Step)
    ensures s.Exit? <==> action == "exit"
    ensures !s.Invoke?
  {
    match action
    case "search_movies" => Open(MoviesMenu)
    case "search_tv" => Open(TvShowsMenu)
    case "search_people" => Open(PeopleMenu)
    case "multi_search" => Ask(MultiSearchForm)
    case "trending" => Ask(TrendingForm)
    case "browse_lists" => Open(ListsMenu)
    case "advanced_search" => Open(AdvancedMenu)
    case "exit" => Exit
    case _ => Done
  }

  /** The movie list a choice names: the choice values are the lists' endpoint names. */
  function MovieListOf(choice: string): (l: Option<MovieRepository.MovieList>)
    ensures l.Some? ==> MovieRepository.ListPath(l.value) == "/movie/" + choice
  {
    match choice
    case "popular" => Some(MovieRepository.Popular)
    case "top_rated" => Some(MovieRepository.TopRated)
    case "upcoming" => Some(MovieRepository.Upcoming)
    case "now_playing" => Some(MovieRepository.NowPlaying)
    case _ => None
  }

  /** The TV list a choice names, likewise. */
  function TvListOf(choice: string): (l: Option<TvShowRepository.TvList>)
    ensures l.Some? ==> TvShowRepository.ListPath(l.value) == "/tv/" + choice
  {
    match choice
    case "popular" => Some(TvShowRepository.Popular)
    case "top_rated" => Some(TvShowRepository.TopRated)
    case "airing_today" => Some(TvShowRepository.AiringToday)
    case "on_the_air" => Some(TvShowRepository.OnTheAir)
    case _ => None
  }

  /** Every list is offered, under its endpoint name. */
  lemma ListsOffered(m: MovieRepository.MovieList, t: TvShowRepository.TvList)
    ensures MovieListOf(MovieRepository.ListPath(m)[7..]) == Some(m)
    ensures TvListOf(TvShowRepository.ListPath(t)[4..]) == Some(t)
  {
  }

  function MovieListStep(choice: string): Step {
    match MovieListOf(choice)
    case Some(l) => Invoke(GetMovieList(l, "1"))
    case None => Done
  }

  function TvListStep(choice: string): Step {
    match TvListOf(choice)
    case Some(l) => Invoke(GetTvList(l, "1"))
    case None => Done
  }

  function MoviesStep(choice: string): Step {
    match choice
    case "search" => Ask(MovieTitleForm)
    case "discover" => Ask(MovieDiscoverForm)
    case "details" => Ask(MovieIdForm)
    case _ => MovieListStep(choice)
  }

  function TvShowsStep(choice: string): Step {
    match choice
    case "search" => Ask(TvTitleForm)
    case "discover" => Ask(TvDiscoverForm)
    case "details" => Ask(TvIdForm)
    case _ => TvListStep(choice)
  }

  function PeopleStep(choice: string): Step {
    match choice
    case "search" => Ask(PersonNameForm)
    case "details" => Ask(PersonIdForm)
    case "popular" => Invoke(GetPopularPeople("1"))
    case "movie_credits" => Ask(PersonCreditsForm(false))
    case "tv_credits" => Ask(PersonCreditsForm(true))
    case _ => Done
  }

  function ListsStep(choice: string): Step {
    match choice
    case "movie_lists" => Open(MovieListsMenu)
    case "tv_lists" => Open(TvListsMenu)
    case "people_lists" => Invoke(GetPopularPeople("1"))
    case _ => Done
  }

  function AdvancedStep(choice: string): Step {
    match choice
    case "movie_advanced" => Ask(MovieDiscoverForm)
    case "tv_advanced" => Ask(TvDiscoverForm)
    case _ => Done
  }

  /** A choice in a menu. Every call a menu makes directly is a list, and asks for page 1. */
  function MenuStep(menu: Menu, choice: string): (s: Step)
    ensures s.Invoke? ==> PageOf(s.call) == Some("1")
    ensures s.Invoke? ==> s.call.GetMovieList? || s.call.GetTvList? || s.call.GetPopularPeople?
  {
    match menu
    case MoviesMenu => MoviesStep(choice)
    case TvShowsMenu => TvShowsStep(choice)
    case PeopleMenu => PeopleStep(choice)
    case ListsMenu => ListsStep(choice)
    case MovieListsMenu => MovieListStep(choice)
    case TvListsMenu => TvListStep(choice)
    case AdvancedMenu => AdvancedStep(choice)
  }

  /** "back" returns to the main menu from every menu, without calling the controller. */
  lemma BackCallsNothing(menu: Menu)
    ensures MenuStep(menu, "back") == Done
  {
    assert MovieListOf("back") == None && TvListOf("back") == None;
  }

  /** A list shortcut in the movie or TV menu calls what the same list in the list browser
      calls. */
  lemma ShortcutsMatchBrowser(choice: string)
    ensures MenuStep(MoviesMenu, choice).Invoke? ==> MenuStep(MoviesMenu, choice) == MenuStep(MovieListsMenu, choice)
    ensures MenuStep(TvShowsMenu, choice).Invoke? ==> MenuStep(TvShowsMenu, choice) == MenuStep(TvListsMenu, choice)
  {
  }

  /** The answers a form collects; a form reads only its own. */
  datatype Answers = Answers(query: string, year: string, adult: bool, id: string,
                             discover: DiscoverAnswers,
                             mediaType: Filters.MediaType, timeWindow: Filters.TimeWindow)

  predicate DiscoverValid(d: DiscoverAnswers) {
    CheckYear(d.year).Accept? && CheckVoteAverage(d.voteAverage).Accept? && CheckVoteCount(d.voteCount).Accept?
  }

  function IdMessage(form: Form): string {
    match form
    case MovieIdForm => MovieIdMessage
    case TvIdForm => TvIdMessage
    case _ => PersonIdMessage
  }

  /** Whether every validator of a form accepts its answers. */
  predicate Valid(form: Form, a: Answers) {
    match form
    case MovieTitleForm => CheckQuery(a.query).Accept? && CheckYear(a.year).Accept?
    case TvTitleForm => CheckQuery(a.query).Accept? && CheckYear(a.year).Accept?
    case PersonNameForm => CheckQuery(a.query).Accept?
    case MultiSearchForm => CheckQuery(a.query).Accept?
    case MovieDiscoverForm => DiscoverValid(a.discover)
    case TvDiscoverForm => DiscoverValid(a.discover)
    case TrendingForm => true
    case _ => CheckId(a.id, IdMessage(form)).Accept?
  }

  /** The forms that look something up by ID. */
  predicate IsLookup(form: Form) {
    form.MovieIdForm? || form.TvIdForm? || form.PersonIdForm? || form.PersonCreditsForm?
  }

  function LookupCall(form: Form, id: int): (call: ControllerCall)
    requires IsLookup(form)
    ensures PageOf(call).None? && call.id == id
  {
    match form
    case MovieIdForm => GetMovieDetails(id)
    case TvIdForm => GetTvShowDetails(id)
    case PersonIdForm => GetPersonDetails(id)
    case PersonCreditsForm(tv) => GetPersonCredits(id, tv)
  }

  function SearchCall(form: Form, a: Answers): (call: ControllerCall)
    requires !IsLookup(form)
    ensures PageOf(call) == Some("1")
  {
    match form
    case MovieTitleForm => SearchMovies(a.query, a.year, a.adult, "1")
    case TvTitleForm => SearchTvShows(a.query, a.year, a.adult, "1")
    case PersonNameForm => SearchPeople(a.query, a.adult, "1")
    case MultiSearchForm => MultiSearch(a.query, a.adult, "1")
    case MovieDiscoverForm => DiscoverMovies(a.discover, "1")
    case TvDiscoverForm => DiscoverTvShows(a.discover, "1")
    case TrendingForm => GetTrending(a.mediaType, a.timeWindow, "1")
  }

  /** The call a completed form makes: every search and discovery asks for page 1, and an
      ID reaches the controller as the number its digits denote. */
  function Submit(form: Form, a: Answers): (r: Option<ControllerCall>)
    ensures r.Some? <==> Valid(form, a)
    ensures r.Some? ==> (PageOf(r.value).None? <==> IsLookup(form))
    ensures r.Some? && !IsLookup(form) ==> PageOf(r.value) == Some("1")
    ensures r.Some? && IsLookup(form) ==> Digits(a.id) && r.value.id == DigitsValue(a.id)
  {
    if !Valid(form, a) then None
    else if IsLookup(form) then
      assert Digits(a.id);
      Some(LookupCall(form, ParsedId(a.id)))
    else Some(SearchCall(form, a))
  }

  /** `parseInt` of an ID the validator accepted. */
  function ParsedId(id: string): (n: int)
    requires Digits(id)
    ensures ParseInt(id) == Some(n) && n == DigitsValue(id)
  {
    ParseDigits(id);
    ParseInt(id).value
  }

  /** A blank query never reaches the controller. */
  lemma BlankQueryNotSent(form: Form, a: Answers)
    requires form in {MovieTitleForm, TvTitleForm, PersonNameForm, MultiSearchForm}
    requires forall k :: 0 <= k < |a.query| ==> IsWhite(a.query[k])
    ensures Submit(form, a).None?
  {
  }
}
