/** The browser search page without its rendering and sorting: the query guard, the tab
    switch, page changes and the pagination bar. A search's reply arrives later; the model
    returns the searches a handler starts and applies a reply separately. */
module SearchPage {
  import opened Wrappers
  import opened Strings
  import opened Js

  datatype Tab = MoviesTab | TvTab | PeopleTab

  datatype SortOption = Popularity | VoteAverage | ReleaseDate | Title

  /** An entry of the sort menu: the option and the caption it is shown with. */
  datatype SortChoice = SortChoice(option: SortOption, caption: string)

  /** The sort menu of each tab. */
  function SortChoices(tab: Tab): (choices: seq<SortChoice>)
    ensures |choices| > 0 && choices[0] == SortChoice(Popularity, "Popularity")
  {
    match tab
    case MoviesTab =>
      [SortChoice(Popularity, "Popularity"), SortChoice(VoteAverage, "Rating"),
       SortChoice(ReleaseDate, "Release Date"), SortChoice(Title, "Title")]
    case TvTab =>
      [SortChoice(Popularity, "Popularity"), SortChoice(VoteAverage, "Rating"),
       SortChoice(ReleaseDate, "First Air Date"), SortChoice(Title, "Name")]
    case PeopleTab =>
      [SortChoice(Popularity, "Popularity"), SortChoice(Title, "Name")]
  }

  /** Whether a tab's sort menu offers an option. */
  predicate Offers(tab: Tab, o: SortOption) {
    exists k :: 0 <= k < |SortChoices(tab)| && SortChoices(tab)[k].option == o
  }

  /** People can be sorted by popularity and by name only; movies and TV shows by every
      option. */
  lemma SortMenus(o: SortOption)
    ensures Offers(PeopleTab, o) <==> o == Popularity || o == Title
    ensures Offers(MoviesTab, o) && Offers(TvTab, o)
  {
    var m := SortChoices(MoviesTab);
    var t := SortChoices(TvTab);
    var p := SortChoices(PeopleTab);
    assert m[0].option == Popularity && m[1].option == VoteAverage && m[2].option == ReleaseDate && m[3].option == Title;
    assert t[0].option == Popularity && t[1].option == VoteAverage && t[2].option == ReleaseDate && t[3].option == Title;
    assert p[0].option == Popularity && p[1].option == Title;
  }

  /** The page's state. */
  datatype PageState = PageState(
    query: string,
    tab: Tab,
    movies: seq<Value>,
    tvShows: seq<Value>,
    people: seq<Value>,
    currentPage: int,
    totalPages: Value,
    sortBy: SortOption)

  /** A search the page asks the hook for: the tab says which of the hook's searches. */
  datatype SearchCall = SearchCall(tab: Tab, query: string, page: int)

  predicate Blank(q: string) {
    forall k :: 0 <= k < |q| ==> IsWhite(q[k])
  }

  /** `handleSearch(searchQuery, page)`: a blank query does nothing; otherwise the page
      number is shown at once and the active tab's search is started. */
  function HandleSearch(s: PageState, searchQuery: string, page: int): (out: (PageState, Option<SearchCall>))
    ensures out.1.None? <==> Blank(searchQuery)
    ensures out.1.None? ==> out.0 == s
    ensures out.1.Some? ==> out.0 == s.(currentPage := page) && out.1.value == SearchCall(s.tab, searchQuery, page)
  {
    TrimEmptyIffWhite(searchQuery);
    if Trim(searchQuery) == "" then (s, None)
    else (s.(currentPage := page), Some(SearchCall(s.tab, searchQuery, page)))
  }

  /** What the page reads from a search that succeeded with data: `result.data.results`
      and `result.data.totalPages`. */
  datatype Found = Found(results: seq<Value>, totalPages: Value)

  /** The data a successful search hands the page. The movie search maps TMDB's body to a
      `SearchResult`, whose `totalPages` is the body's `total_pages`; the TV and people
      searches hand over the body as TMDB sent it, in snake case. */
  datatype Reply = MovieReply(results: seq<Value>, totalPages: Value) | RawReply(body: Value)

  /** The elements of a results array. The page stores `result.data.results` as it is, and
      `renderResults` throws on the `.length` or `.map` of anything that is not an array;
      here such a value is read as an empty list instead. */
  function Items(v: Value): seq<Value> {
    if v.Arr? then v.items else []
  }

  /** What the page reads, as written: `result.data.totalPages` on every tab, which on the TV
      and people tabs is a property TMDB's body does not have. */
  function FoundAsWritten(reply: Reply): (f: Found)
    ensures reply.MovieReply? ==> f == Found(reply.results, reply.totalPages)
    ensures reply.RawReply? && GetOpt(reply.body, "results").Arr? ==> f.results == GetOpt(reply.body, "results").items
    ensures reply.RawReply? && TmdbBody(reply.body) ==> f.totalPages == Undefined
  {
    match reply
    case MovieReply(results, totalPages) => Found(results, totalPages)
    case RawReply(body) => Found(Items(GetOpt(body, "results")), GetOpt(body, "totalPages"))
  }

  /** What the page reads, as intended: the page count under the name the data carries it,
      `totalPages` for the movie result and `total_pages` for TMDB's body. */
  function FoundOf(reply: Reply): (f: Found)
    ensures reply.RawReply? ==> f.totalPages == GetOpt(reply.body, "total_pages")
    ensures reply.MovieReply? ==> f == FoundAsWritten(reply)
    ensures f.results == FoundAsWritten(reply).results
  {
    match reply
    case MovieReply(results, totalPages) => Found(results, totalPages)
    case RawReply(body) => Found(Items(GetOpt(body, "results")), GetOpt(body, "total_pages"))
  }

  /** A body as TMDB sends it: an object with a numeric `total_pages` and no `totalPages`. */
  predicate TmdbBody(body: Value) {
    body.Obj? && "totalPages" !in body.fields && "total_pages" in body.fields && body.fields["total_pages"].Num?
  }

  /** A reply to a search started on `tab`: a success with data replaces that tab's list
      and the page count; anything else leaves the page as it is. */
  function ApplyReply(s: PageState, tab: Tab, reply: Option<Found>): (s': PageState)
    ensures reply.None? ==> s' == s
    ensures reply.Some? ==> s'.totalPages == reply.value.totalPages
    ensures (tab == MoviesTab && reply.Some?) || s'.movies == s.movies
    ensures (tab == TvTab && reply.Some?) || s'.tvShows == s.tvShows
    ensures (tab == PeopleTab && reply.Some?) || s'.people == s.people
    ensures s'.query == s.query && s'.tab == s.tab && s'.currentPage == s.currentPage && s'.sortBy == s.sortBy
  {
    match reply
    case None => s
    case Some(f) =>
      match tab
      case MoviesTab => s.(movies := f.results, totalPages := f.totalPages)
      case TvTab => s.(tvShows := f.results, totalPages := f.totalPages)
      case PeopleTab => s.(people := f.results, totalPages := f.totalPages)
  }

  /** The list a tab shows. */
  function Shown(s: PageState): seq<Value> {
    match s.tab
    case MoviesTab => s.movies
    case TvTab => s.tvShows
    case PeopleTab => s.people
  }

  /** A reply to a search of the tab on show is what the tab then shows. */
  lemma ReplyShown(s: PageState, found: Found)
    ensures Shown(ApplyReply(s, s.tab, Some(found))) == found.results
  {
  }

  /** The state right after a tab change: page 1, the default sort, and no results. */
  function Reset(s: PageState, tab: Tab): (s': PageState)
    ensures s'.tab == tab && s'.currentPage == 1 && s'.sortBy == Popularity
    ensures s'.movies == [] && s'.tvShows == [] && s'.people == []
    ensures s'.query == s.query && s'.totalPages == s.totalPages
  {
    s.(tab := tab, currentPage := 1, sortBy := Popularity, movies := [], tvShows := [], people := [])
  }

  /** `handleTabChange(tab)` together with the effect that watches the tab, as written. The
      handler calls the `handleSearch` of the same render, which still sees the previous
      tab; when the tab really changed, the effect then searches the new one. */
  function TabChangeAsWritten(s: PageState, tab: Tab): (out: (PageState, seq<SearchCall>))
    ensures out.0 == Reset(s, tab)
    ensures Blank(s.query) <==> out.1 == []
  {
    TrimEmptyIffWhite(s.query);
    var handler := if Trim(s.query) != "" then [SearchCall(s.tab, s.query, 1)] else [];
    var effect := if tab != s.tab && Trim(s.query) != "" then [SearchCall(tab, s.query, 1)] else [];
    (Reset(s, tab), handler + effect)
  }

  /** With a query entered, switching tabs also searches the tab being left, whose results
      then refill a list the switch has just emptied. */
  lemma TabChangeSearchesOldTab(s: PageState, tab: Tab)
    requires tab != s.tab && !Blank(s.query)
    ensures TabChangeAsWritten(s, tab).1 == [SearchCall(s.tab, s.query, 1), SearchCall(tab, s.query, 1)]
    ensures ApplyReply(TabChangeAsWritten(s, tab).0, s.tab, Some(Found([Null], Num(1)))) != TabChangeAsWritten(s, tab).0
  {
    var r := Reset(s, tab);
    TrimEmptyIffWhite(s.query);
    match s.tab
    case MoviesTab => assert ApplyReply(r, s.tab, Some(Found([Null], Num(1)))).movies == [Null];
    case TvTab => assert ApplyReply(r, s.tab, Some(Found([Null], Num(1)))).tvShows == [Null];
    case PeopleTab => assert ApplyReply(r, s.tab, Some(Found([Null], Num(1)))).people == [Null];
  }

  /** A tab change as intended: reset, then one search of the new tab when there is a
      query. */
  function TabChange(s: PageState, tab: Tab): (out: (PageState, seq<SearchCall>))
    ensures out.0 == Reset(s, tab)
    ensures Blank(s.query) ==> out.1 == []
    ensures !Blank(s.query) ==> out.1 == [SearchCall(tab, s.query, 1)]
  {
    var (s', search) := HandleSearch(Reset(s, tab), s.query, 1);
    (s', if search.Some? then [search.value] else [])
  }

  /** After a tab change every search is of the new tab, for page 1, and the default sort
      is one the new tab offers. */
  lemma TabChangeSearchesNewTab(s: PageState, tab: Tab)
    ensures forall c :: c in TabChange(s, tab).1 ==> c.tab == tab && c.page == 1
    ensures Offers(tab, TabChange(s, tab).0.sortBy)
  {
    assert SortChoices(tab)[0].option == Popularity;
  }

  /** `handlePageChange(page)`: a search of the entered query for that page, unless the
      query is blank. */
  function PageChange(s: PageState, page: int): (out: (PageState, Option<SearchCall>))
    ensures out.1.None? <==> Blank(s.query)
    ensures out.1.Some? ==> out.1.value == SearchCall(s.tab, s.query, page) && out.0.currentPage == page
  {
    HandleSearch(s, s.query, page)
  }

  // ---------------------------------------------------------------- pagination

  /** The pagination bar: the page buttons and whether "Previous" and "Next" show. */
  datatype Pagination = Pagination(pages: seq<int>, previous: bool, next: bool)

  function Max(a: int, b: int): int { if a >= b then a else b }
  function Min(a: int, b: int): int { if a <= b then a else b }

  /** The page count as the bar's comparisons and `Math.min` see it, `Number(totalPages)`;
      `None` is `NaN`, with which every comparison is false and `Math.min` is `NaN`. */
  function PageCount(totalPages: Value): Option<int> {
    var n := ToNumber(totalPages);
    if n.Num? then Some(n.n) else None
  }

  /** The pages from two before to two after the current one, cut to the pages 1 to
      `count`. */
  predicate Window(pages: seq<int>, currentPage: int, count: int) {
    && |pages| == Max(0, Min(count, currentPage + 2) - Max(1, currentPage - 2) + 1)
    && forall k :: 0 <= k < |pages| ==> pages[k] == Max(1, currentPage - 2) + k
  }

  /** The page buttons for a numeric page count: at most five, all existing pages, the
      current one among them when it exists. */
  method PageButtons(currentPage: int, count: int) returns (pages: seq<int>)
    ensures Window(pages, currentPage, count)
    ensures |pages| <= 5
    ensures forall k :: 0 <= k < |pages| ==> 1 <= pages[k] <= count
    ensures 1 <= currentPage <= count ==> currentPage in pages
  {
    var startPage := Max(1, currentPage - 2);
    var endPage := Min(count, currentPage + 2);
    pages := [];
    var i := startPage;
    while i <= endPage
      invariant startPage <= i <= Max(startPage, endPage + 1)
      invariant |pages| == i - startPage
      invariant forall k :: 0 <= k < |pages| ==> pages[k] == startPage + k
    {
      pages := pages + [i];
      i := i + 1;
    }
    if 1 <= currentPage <= count {
      assert pages[currentPage - startPage] == currentPage;
    }
  }

  /** `renderPagination()`: nothing when the page count is at most one; otherwise the page
      buttons, with "Previous" unless on the first page and "Next" unless on the last. A page
      count that is not a number (`undefined`, say) passes the first test, yields no page
      buttons, and never offers "Next". */
  method RenderPagination(currentPage: int, totalPages: Value) returns (r: Option<Pagination>)
    ensures r.None? <==> PageCount(totalPages).Some? && PageCount(totalPages).value <= 1
    ensures r.Some? ==> (r.value.previous <==> currentPage > 1)
    ensures r.Some? ==> (r.value.next <==> PageCount(totalPages).Some? && currentPage < PageCount(totalPages).value)
    ensures r.Some? && PageCount(totalPages).Some? ==> Window(r.value.pages, currentPage, PageCount(totalPages).value)
    ensures r.Some? && PageCount(totalPages).Some? ==>
      forall k :: 0 <= k < |r.value.pages| ==> 1 <= r.value.pages[k] <= PageCount(totalPages).value
    ensures PageCount(totalPages).None? ==> r == Some(Pagination([], currentPage > 1, false))
  {
    match PageCount(totalPages)
    case None =>
      return Some(Pagination([], currentPage > 1, false));
    case Some(count) =>
      if count <= 1 {
        return None;
      }
      var pages := PageButtons(currentPage, count);
      return Some(Pagination(pages, currentPage > 1, currentPage < count));
  }

  /** Away from both ends of a long enough result, the bar shows five pages centred on the
      current one. */
  method CentredWindow(currentPage: int, totalPages: int) returns (r: Option<Pagination>)
    requires 3 <= currentPage <= totalPages - 2
    ensures r.Some? && r.value.pages == [currentPage - 2, currentPage - 1, currentPage, currentPage + 1, currentPage + 2]
  {
    r := RenderPagination(currentPage, Num(totalPages));
    assert |r.value.pages| == 5;
  }

  /** As written, a TV or people search leaves the page with an `undefined` page count,
      whatever TMDB reported. */
  lemma RawCountLost(s: PageState, tab: Tab, body: Value)
    requires TmdbBody(body)
    ensures ApplyReply(s, tab, Some(FoundAsWritten(RawReply(body)))).totalPages == Undefined
  {
  }

  /** With that count, however many pages TMDB reports, the bar shows no page buttons and
      no "Next": the TV and people tabs never leave page 1. */
  method RawTabStuck(s: PageState, tab: Tab, body: Value) returns (r: Option<Pagination>)
    requires TmdbBody(body) && body.fields["total_pages"].n >= 2
    ensures r == Some(Pagination([], s.currentPage > 1, false))
  {
    RawCountLost(s, tab, body);
    var s' := ApplyReply(s, tab, Some(FoundAsWritten(RawReply(body))));
    r := RenderPagination(s'.currentPage, s'.totalPages);
  }

  /** Reading `total_pages` instead, the page keeps TMDB's count and, on page 1 of a result
      with several pages, offers "Next" and a button for page 2. */
  method RawTabPaged(s: PageState, tab: Tab, body: Value) returns (r: Option<Pagination>)
    requires TmdbBody(body) && body.fields["total_pages"].n >= 2 && s.currentPage == 1
    ensures ApplyReply(s, tab, Some(FoundOf(RawReply(body)))).totalPages == body.fields["total_pages"]
    ensures r.Some? && r.value.next && 2 in r.value.pages
  {
    var s' := ApplyReply(s, tab, Some(FoundOf(RawReply(body))));
    r := RenderPagination(s'.currentPage, s'.totalPages);
    assert r.value.pages[1] == 2;
  }
}
