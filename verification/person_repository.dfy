/** The TMDB person repository: the request each operation makes. Like the TV-show
    repository it returns TMDB's responses as they arrive. */
module PersonRepository {
  import opened Wrappers
  import opened Strings
  import opened Js
  import opened Query
  import opened Errors
  import opened Repository
  import TmdbClient

  /** `searchPeople`: the parameter object built from a `SearchFilters` record. */
  const SearchTable: ParamTable := [
    ("query", Copy("query")),
    ("page", OrDefault("page", Num(1))),
    ("include_adult", OrDefault("includeAdult", Bool(false))),
    ("language", OrDefault("language", Str(English)))]

  /** Where the search parameters sit; each name occurs once. */
  lemma SearchRows()
    ensures OnlyAt(SearchTable, "query", 0) && OnlyAt(SearchTable, "page", 1)
    ensures OnlyAt(SearchTable, "include_adult", 2) && OnlyAt(SearchTable, "language", 3)
    ensures forall i :: 0 <= i < |SearchTable| ==> !SearchTable[i].1.PipeJoined?
  {
  }

  /** The request of `searchPeople(filters)`: the page defaults to 1, `include_adult` to
      `false` and the language to `en-US` when falsy. Nothing else of the filters is sent. */
  function SearchPeopleCall(f: Params): (call: Call)
    ensures call.path == "/search/person"
    ensures KeysOf(call.params) == ["query", "page", "include_adult", "language"]
    ensures Find(call.params, "query") == Some(Lookup(f, "query"))
    ensures Find(call.params, "page") == Some(Or(Lookup(f, "page"), Num(1)))
    ensures Find(call.params, "include_adult") == Some(Or(Lookup(f, "includeAdult"), Bool(false)))
    ensures Find(call.params, "language") == Some(Or(Lookup(f, "language"), Str(English)))
  {
    SearchRows();
    NoJoinNeverFails(f, SearchTable);
    BuildParamsKeys(f, SearchTable);
    RuleAt(f, SearchTable, "query", 0);
    RuleAt(f, SearchTable, "page", 1);
    RuleAt(f, SearchTable, "include_adult", 2);
    RuleAt(f, SearchTable, "language", 3);
    Call("/search/person", BuildParams(f, SearchTable).value)
  }

  lemma SearchLanguageRow()
    ensures OnlyAt(SearchTable, "language", 3) && SearchTable[3].1 == OrDefault("language", Str(English))
    ensures forall i :: 0 <= i < |SearchTable| ==> !SearchTable[i].1.PipeJoined?
  {
  }

  /** A person search always names a language: the filters' own when truthy, else `en-US`,
      never the client's configured default. */
  lemma SearchPeopleLanguage(c: TmdbClient.Client, f: Params)
    ensures Find(TmdbClient.QueryOf(c, SearchPeopleCall(f).params), "language")
            == Some(ParamText(Or(Lookup(f, "language"), Str(English))))
    ensures !Truthy(Lookup(f, "language")) ==>
            Find(TmdbClient.QueryOf(c, SearchPeopleCall(f).params), "language") == Some(English)
  {
    SearchLanguageRow();
    NoJoinNeverFails(f, SearchTable);
    QueryAt(c, f, SearchTable, "language", 3);
    DefaultSent(f, "language", Str(English));
    assert ParamText(Str(English)) == English;
  }

  /** `searchPeople(filters)`: the response as TMDB sends it. */
  function SearchPeople(c: TmdbClient.Client, f: Params): (r: Result<Value, Error>)
    ensures Raw(c, SearchPeopleCall(f), r)
    ensures r.Err? ==> r.error.ApiError? || r.error.RateLimitError?
  {
    Fetch(c, SearchPeopleCall(f))
  }

  /** `search(query, filters)`: the results of the search with `filters || { query }`. */
  function Search(c: TmdbClient.Client, query: Value, filters: Option<Params>): (r: Result<Value, Error>)
    ensures SearchPeople(c, SearchFiltersOf(query, filters)).Err? ==> r == Err(SearchPeople(c, SearchFiltersOf(query, filters)).error)
    ensures r.Ok? ==> r.value == GetOpt(SearchPeople(c, SearchFiltersOf(query, filters)).value, "results")
    ensures SearchPeople(c, SearchFiltersOf(query, filters)).Ok? ==> r == ResultsOf(SearchPeople(c, SearchFiltersOf(query, filters)).value)
  {
    var response :- SearchPeople(c, SearchFiltersOf(query, filters));
    ResultsOf(response)
  }

  /** `findAll()`: the results of the first page of popular people, in the client's default
      language. */
  function FindAll(c: TmdbClient.Client): (r: Result<Value, Error>)
    ensures Fetch(c, Call("/person/popular", [])).Err? ==> r == Err(Fetch(c, Call("/person/popular", [])).error)
    ensures r.Ok? ==> r.value == GetOpt(Fetch(c, Call("/person/popular", [])).value, "results")
    ensures Fetch(c, Call("/person/popular", [])).Ok? ==> r == ResultsOf(Fetch(c, Call("/person/popular", [])).value)
  {
    var response :- Fetch(c, Call("/person/popular", []));
    ResultsOf(response)
  }

  /** `getPopularPeople(page)`: the page (1 when omitted) and a fixed `en-US` language. */
  function PopularCall(page: Value): (call: Call)
    ensures call.path == "/person/popular"
    ensures Find(call.params, "page") == Some(PageArg(page))
    ensures Find(call.params, "language") == Some(Str(English))
  {
    Call("/person/popular", EnglishPage(page))
  }

  function GetPopularPeople(c: TmdbClient.Client, page: Value): (r: Result<Value, Error>)
    ensures Raw(c, PopularCall(page), r)
  {
    Fetch(c, PopularCall(page))
  }

  /** `/person/${id}` followed by an optional sub-resource. */
  function PersonPath(id: int, sub: string): (p: string)
    ensures "/person/" <= p
  {
    "/person/" + IdText(id) + sub
  }

  /** Different ids address different people. */
  lemma PersonPathInjective(a: int, b: int, sub: string)
    requires PersonPath(a, sub) == PersonPath(b, sub)
    ensures a == b
  {
    IdPathInjective("/person/", a, b, sub);
  }

  /** `{ language: "en-US" }`. */
  const EnglishOnly: Params := [("language", Str(English))]

  /** `findById(id)`: the person with no parameters of its own. */
  function FindByIdCall(id: int): Call {
    Call(PersonPath(id, ""), [])
  }

  /** `getPersonDetails(id)`: the same person in `en-US`. */
  function DetailsCall(id: int): Call {
    Call(PersonPath(id, ""), EnglishOnly)
  }

  /** `findById` and `getPersonDetails` ask for the same resource and differ only in the
      language: the client's configured one against a fixed `en-US`. */
  lemma FindByIdVersusDetails(c: TmdbClient.Client, id: int)
    ensures FindByIdCall(id).path == DetailsCall(id).path
    ensures Find(TmdbClient.QueryOf(c, FindByIdCall(id).params), "language") == Some(c.language)
    ensures Find(TmdbClient.QueryOf(c, DetailsCall(id).params), "language") == Some(English)
  {
    TmdbClient.QueryEntries(c, [], "language");
    assert AtMostOnce(EnglishOnly, "language");
    TmdbClient.QueryEntries(c, EnglishOnly, "language");
    assert ParamText(Str(English)) == English;
  }

  function FindById(c: TmdbClient.Client, id: int): (r: Result<Value, Error>)
    ensures Raw(c, FindByIdCall(id), r)
  {
    Fetch(c, FindByIdCall(id))
  }

  function GetPersonDetails(c: TmdbClient.Client, id: int): (r: Result<Value, Error>)
    ensures Raw(c, DetailsCall(id), r)
  {
    Fetch(c, DetailsCall(id))
  }

  /** `getPersonMovieCredits(id)` (`tv` false) and `getPersonTvCredits(id)`, both in `en-US`. */
  function CreditsCall(id: int, tv: bool): (call: Call)
    ensures call.path == PersonPath(id, if tv then "/tv_credits" else "/movie_credits")
    ensures Find(call.params, "language") == Some(Str(English))
  {
    Call(PersonPath(id, if tv then "/tv_credits" else "/movie_credits"), EnglishOnly)
  }

  /** Movie and TV credits are different resources, whichever the two ids. */
  lemma CreditsDistinct(a: int, b: int)
    ensures CreditsCall(a, false).path != CreditsCall(b, true).path
  {
    CreditEndings("/person/" + IdText(a), "/person/" + IdText(b));
    assert CreditsCall(a, false).path == ("/person/" + IdText(a)) + "/movie_credits";
    assert CreditsCall(b, true).path == ("/person/" + IdText(b)) + "/tv_credits";
  }

  /** The movie-credits suffix has a `v` where the TV-credits suffix has its slash. */
  lemma CreditEndings(x: string, y: string)
    ensures x + "/movie_credits" != y + "/tv_credits"
  {
    var p1 := x + "/movie_credits";
    var p2 := y + "/tv_credits";
    assert p1[|p1| - 11] == 'v';
    assert p2[|p2| - 11] == '/';
  }

  function GetCredits(c: TmdbClient.Client, id: int, tv: bool): (r: Result<Value, Error>)
    ensures Raw(c, CreditsCall(id, tv), r)
  {
    Fetch(c, CreditsCall(id, tv))
  }
}
