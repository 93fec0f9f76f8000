/** What the TMDB repositories share: the request a repository operation makes (an endpoint
    and a parameter object), the parameter tables that rename filter fields to TMDB query
    names, the paged envelope, and the rule that a repository rethrows every error it
    catches unchanged. */
module Repository {
  import opened Wrappers
  import opened Strings
  import opened Js
  import opened Query
  import opened Errors
  import TmdbClient

  /** One `tmdbClient.get(path, params)` call. */
  datatype Call = Call(path: string, params: Params)

  /** What an operation that returns TMDB's body as it is delivers for its call: the body
      of the answer to the request the TMDB client builds, or the client's translation of
      the failure. */
  predicate Raw(c: TmdbClient.Client, call: Call, r: Result<Value, Error>) {
    var out := c.transport(TmdbClient.GetRequestFor(c, call.path, call.params));
    && (out.Answered? ==> r == Ok(out.response.data))
    && (out.Failed? ==> r == Err(TmdbClient.Translate(out.failure)))
  }

  /** The response body of a call, or the error the TMDB client threw. Repositories catch
      errors only to log and rethrow them, so the error reaches the caller unchanged, and
      it is always an `ApiError` or a `RateLimitError`. */
  function Fetch(c: TmdbClient.Client, call: Call): (r: Result<Value, Error>)
    ensures Raw(c, call, r)
    ensures r.Err? ==> r.error.ApiError? || r.error.RateLimitError?
  {
    TmdbClient.Get(c, call.path, call.params)
  }

  /** How one query parameter is computed from a filter record: copied from a field,
      `field || fallback`, or `field?.join("|")`. */
  datatype FieldRule =
    | Copy(field: string)
    | OrDefault(field: string, fallback: Value)
    | PipeJoined(field: string)

  /** External query name and rule, in the order the parameter object lists them. */
  type ParamTable = seq<(string, FieldRule)>

  /** `list?.join("|")`: nothing for an absent list, the joined text for an array, and a
      `TypeError` for anything else, which has no `join`. */
  function PipeJoin(v: Value): (r: Result<Value, Error>)
    ensures Nullish(v) ==> r == Ok(Undefined)
    ensures v.Arr? ==> r == Ok(Str(JoinValues(v.items, "|")))
    ensures r.Err? <==> !Nullish(v) && !v.Arr?
  {
    if Nullish(v) then Ok(Undefined)
    else match v
      case Arr(items) => Ok(Str(JoinValues(items, "|")))
      case _ => Err(TypeError("join is not a function"))
  }

  function ApplyRule(f: Params, rule: FieldRule): Result<Value, Error> {
    match rule
    case Copy(k) => Ok(Lookup(f, k))
    case OrDefault(k, d) => Ok(Or(Lookup(f, k), d))
    case PipeJoined(k) => PipeJoin(Lookup(f, k))
  }

  /** The parameter object a table prescribes for a filter record: one entry per table row,
      in table order; the first failing `join` makes the whole construction fail. (The
      filter record's size is part of the measure only so that a constant table alone never
      lets the verifier unfold the whole construction.) */
  function BuildParams(f: Params, table: ParamTable): (r: Result<Params, Error>)
    ensures r.Ok? ==> |r.value| == |table|
    decreases |table|, |f|
  {
    if |table| == 0 then Ok([])
    else
      var v :- ApplyRule(f, table[0].1);
      var rest :- BuildParams(f, table[1..]);
      Ok([(table[0].0, v)] + rest)
  }

  /** Row `i` of the table gives entry `i` of the parameters: the row's name, and the
      value its rule computes. */
  lemma {:induction false} BuildParamsAt(f: Params, table: ParamTable, i: nat)
    requires BuildParams(f, table).Ok? && i < |table|
    ensures BuildParams(f, table).value[i].0 == table[i].0
    ensures Ok(BuildParams(f, table).value[i].1) == ApplyRule(f, table[i].1)
    decreases |table|
  {
    if i > 0 {
      BuildParamsAt(f, table[1..], i - 1);
    }
  }

  /** The parameters have the table's names, in the table's order. */
  lemma BuildParamsKeys(f: Params, table: ParamTable)
    requires BuildParams(f, table).Ok?
    ensures KeysOf(BuildParams(f, table).value) == KeysOf(table)
  {
    forall i | 0 <= i < |table| ensures KeysOf(BuildParams(f, table).value)[i] == KeysOf(table)[i] {
      BuildParamsAt(f, table, i);
    }
  }

  /** A list field that `join` cannot be called on: present, but not an array. */
  predicate Unjoinable(f: Params, field: string) {
    !Nullish(Lookup(f, field)) && !Lookup(f, field).Arr?
  }

  /** Building the parameters fails exactly when a `join` row meets a list field that is
      not an array. */
  lemma {:induction false} BuildParamsFails(f: Params, table: ParamTable)
    ensures BuildParams(f, table).Err? <==>
      exists i :: 0 <= i < |table| && table[i].1.PipeJoined? && Unjoinable(f, table[i].1.field)
    decreases |table|
  {
    if |table| > 0 {
      BuildParamsFails(f, table[1..]);
      if exists i :: 0 <= i < |table[1..]| && table[1..][i].1.PipeJoined? && Unjoinable(f, table[1..][i].1.field) {
        var i :| 0 <= i < |table[1..]| && table[1..][i].1.PipeJoined? && Unjoinable(f, table[1..][i].1.field);
        assert table[i + 1] == table[1..][i];
      }
      if exists i :: 0 <= i < |table| && table[i].1.PipeJoined? && Unjoinable(f, table[i].1.field) {
        var i :| 0 <= i < |table| && table[i].1.PipeJoined? && Unjoinable(f, table[i].1.field);
        if i > 0 {
          assert table[1..][i - 1] == table[i];
        }
      }
    }
  }

  /** The parameter of the one row named `k`. */
  lemma RuleAt(f: Params, table: ParamTable, k: string, i: int)
    requires OnlyAt(table, k, i) && BuildParams(f, table).Ok?
    ensures ApplyRule(f, table[i].1).Ok?
    ensures OnlyAt(BuildParams(f, table).value, k, i)
    ensures Find(BuildParams(f, table).value, k) == Some(ApplyRule(f, table[i].1).value)
  {
    var p := BuildParams(f, table).value;
    forall j | 0 <= j < |p| ensures p[j].0 == table[j].0 {
      BuildParamsAt(f, table, j);
    }
    BuildParamsAt(f, table, i);
    OnlyAtFind(p, k, i);
  }

  /** A copied field: the row named `k` carries the field's value as it is. */
  lemma CopyAt(f: Params, table: ParamTable, k: string, i: int, field: string)
    requires OnlyAt(table, k, i) && table[i].1 == Copy(field) && BuildParams(f, table).Ok?
    ensures Find(BuildParams(f, table).value, k) == Some(Lookup(f, field))
  {
    RuleAt(f, table, k, i);
  }

  /** A defaulted field: the row named `k` carries `field || fallback`. */
  lemma DefaultAt(f: Params, table: ParamTable, k: string, i: int, field: string, fallback: Value)
    requires OnlyAt(table, k, i) && table[i].1 == OrDefault(field, fallback) && BuildParams(f, table).Ok?
    ensures Find(BuildParams(f, table).value, k) == Some(Or(Lookup(f, field), fallback))
  {
    RuleAt(f, table, k, i);
  }

  /** A joined list field: the row named `k` carries `field?.join("|")`. */
  lemma JoinAt(f: Params, table: ParamTable, k: string, i: int, field: string)
    requires OnlyAt(table, k, i) && table[i].1 == PipeJoined(field) && BuildParams(f, table).Ok?
    ensures PipeJoin(Lookup(f, field)).Ok?
    ensures Find(BuildParams(f, table).value, k) == Some(PipeJoin(Lookup(f, field)).value)
  {
    RuleAt(f, table, k, i);
  }

  /** A table without `join` rows always yields its parameter object. */
  lemma NoJoinNeverFails(f: Params, table: ParamTable)
    requires forall i :: 0 <= i < |table| ==> !table[i].1.PipeJoined?
    ensures BuildParams(f, table).Ok?
  {
    BuildParamsFails(f, table);
  }

  /** The query entry a rule produces: none for a nullish value, the value's text otherwise. */
  function Sent(f: Params, rule: FieldRule): Option<string> {
    match ApplyRule(f, rule)
    case Ok(v) => EntryFor(Some(v))
    case Err(_) => None
  }

  /** The URL query entry for a table row: the row's rule decides it, so a nullish value
      leaves the name out even where the client has a default for it. */
  lemma QueryAt(c: TmdbClient.Client, f: Params, table: ParamTable, k: string, i: int)
    requires OnlyAt(table, k, i) && BuildParams(f, table).Ok?
    ensures Find(TmdbClient.QueryOf(c, BuildParams(f, table).value), k) == Sent(f, table[i].1)
  {
    var p := BuildParams(f, table).value;
    RuleAt(f, table, k, i);
    TmdbClient.QueryEntries(c, p, k);
    assert k in KeysOf(p) by {
      assert KeysOf(p)[i] == k;
    }
  }

  /** A row with a non-nullish fallback is always sent: as the field's value when truthy,
      else as the fallback. */
  lemma DefaultSent(f: Params, field: string, fallback: Value)
    requires !Nullish(fallback)
    ensures Sent(f, OrDefault(field, fallback)) == Some(ParamText(Or(Lookup(f, field), fallback)))
  {
  }

  /** The URL query entry for a name the table does not have: the API key and default
      language come from the client, and nothing else appears. */
  lemma QueryAbsent(c: TmdbClient.Client, f: Params, table: ParamTable, k: string)
    requires forall j :: 0 <= j < |table| ==> table[j].0 != k
    requires BuildParams(f, table).Ok?
    ensures Find(TmdbClient.QueryOf(c, BuildParams(f, table).value), k) ==
      if k == "api_key" then Some(c.apiKey)
      else if k == "language" then Some(c.language)
      else None
  {
    var p := BuildParams(f, table).value;
    BuildParamsKeys(f, table);
    TmdbClient.QueryEntries(c, p, k);
  }

  /** A filter field that no table row reads cannot influence the parameters. */
  lemma BuildParamsIgnores(f: Params, table: ParamTable, k: string, v: Value)
    requires forall i :: 0 <= i < |table| ==> table[i].1.field != k
    ensures BuildParams(Assign(f, k, v), table) == BuildParams(f, table)
    decreases |table|
  {
    if |table| > 0 {
      AssignFind(f, k, v, table[0].1.field);
      BuildParamsIgnores(f, table[1..], k, v);
    }
  }

  /** The paged envelope every search returns. */
  datatype SearchResult<T> = SearchResult(page: Value, results: seq<T>, totalPages: Value, totalResults: Value)

  /** `items.map(f)`: every element converted in order, or the first element's error. */
  function MapAll<T>(items: seq<Value>, f: Value -> Result<T, Error>): (r: Result<seq<T>, Error>)
    ensures r.Ok? ==> |r.value| == |items| && forall i :: 0 <= i < |items| ==> f(items[i]) == Ok(r.value[i])
    ensures r.Err? <==> exists i :: 0 <= i < |items| && f(items[i]).Err?
    ensures r.Err? ==> exists i :: 0 <= i < |items| && f(items[i]) == Err(r.error)
                                   && forall j :: 0 <= j < i ==> f(items[j]).Ok?
    decreases |items|
  {
    if |items| == 0 then Ok([])
    else
      var first :- f(items[0]);
      var rest := MapAll(items[1..], f);
      assert forall i :: 1 <= i < |items| ==> items[i] == items[1..][i - 1];
      if rest.Err? then
        var k :| 0 <= k < |items[1..]| && f(items[1..][k]) == Err(rest.error)
                 && forall j :: 0 <= j < k ==> f(items[1..][j]).Ok?;
        assert forall j :: 1 <= j < k + 1 ==> items[j] == items[1..][j - 1];
        Err(rest.error)
      else Ok([first] + rest.value)
  }

  /** `{ page: r.page, results: r.results.map(f), totalPages: r.total_pages, totalResults:
      r.total_results }`: reading a field of an absent response or mapping a non-array is a
      `TypeError`. */
  function Envelope<T>(response: Value, f: Value -> Result<T, Error>): (r: Result<SearchResult<T>, Error>)
    ensures r.Ok? ==> GetOpt(response, "results").Arr?
    ensures r.Ok? ==> && r.value.page == GetOpt(response, "page")
                      && r.value.totalPages == GetOpt(response, "total_pages")
                      && r.value.totalResults == GetOpt(response, "total_results")
    ensures r.Ok? ==> MapAll(GetOpt(response, "results").items, f) == Ok(r.value.results)
    ensures r.Err? <==> (Nullish(response) || !GetOpt(response, "results").Arr?
                         || MapAll(GetOpt(response, "results").items, f).Err?)
  {
    match Get(response, "page")
    case None => Err(TypeError("Cannot read properties of null or undefined"))
    case Some(page) =>
      match GetOpt(response, "results")
      case Arr(items) =>
        var results :- MapAll(items, f);
        Ok(SearchResult(page, results, GetOpt(response, "total_pages"), GetOpt(response, "total_results")))
      case _ => Err(TypeError("results.map is not a function"))
  }

  /** What a paged operation delivers for the response of its call: the client's error
      unchanged, or the envelope of the body. */
  ghost predicate PagedFrom<T>(resp: Result<Value, Error>, f: Value -> Result<T, Error>, r: Result<SearchResult<T>, Error>) {
    && (resp.Err? ==> r == Err(resp.error))
    && (resp.Ok? ==> r == Envelope(resp.value, f))
  }

  /** What an operation that keeps only the converted results delivers for the response of
      its call: the client's error unchanged, the envelope's error, or every raw result
      converted in order. */
  ghost predicate ResultsFrom<T>(resp: Result<Value, Error>, f: Value -> Result<T, Error>, r: Result<seq<T>, Error>) {
    && (resp.Err? ==> r == Err(resp.error))
    && (resp.Ok? && Envelope(resp.value, f).Err? ==> r == Err(Envelope(resp.value, f).error))
    && (resp.Ok? && Envelope(resp.value, f).Ok? ==> r == Ok(Envelope(resp.value, f).value.results))
    && (r.Ok? ==> resp.Ok? && GetOpt(resp.value, "results").Arr? && MapAll(GetOpt(resp.value, "results").items, f) == r)
  }

  /** A repository call whose response goes through the paged envelope. The client's
      failures are rethrown unchanged, so they are always the client's translated errors;
      a success holds one converted entity per raw result. */
  function Paged<T>(c: TmdbClient.Client, call: Call, f: Value -> Result<T, Error>): (r: Result<SearchResult<T>, Error>)
    ensures PagedFrom(Fetch(c, call), f, r)
    ensures Fetch(c, call).Err? ==> r.Err? && (r.error.ApiError? || r.error.RateLimitError?)
    ensures r.Ok? ==> Fetch(c, call).Ok? && GetOpt(Fetch(c, call).value, "results").Arr?
                      && |r.value.results| == |GetOpt(Fetch(c, call).value, "results").items|
    ensures r.Ok? ==> r.value.page == GetOpt(Fetch(c, call).value, "page")
  {
    var response :- Fetch(c, call);
    Envelope(response, f)
  }

  /** The filters of `search(query, filters)`: `filters || { query }`. Filters, being an
      object, always win over the query argument. */
  function SearchFiltersOf(query: Value, filters: Option<Params>): (f: Params)
    ensures filters.None? ==> Lookup(f, "query") == query && Lookup(f, "page").Undefined?
    ensures filters.Some? ==> f == filters.value
  {
    match filters
    case None => [("query", query)]
    case Some(f) => f
  }

  /** A default parameter `page = 1`: it applies when the argument is `undefined`. */
  function PageArg(page: Value): (p: Value)
    ensures page.Undefined? ==> p == Num(1)
    ensures !page.Undefined? ==> p == page
  {
    if page.Undefined? then Num(1) else page
  }

  /** `{ page }` alone: the client adds its default language. */
  lemma PageOnlyQuery(c: TmdbClient.Client, page: Value)
    ensures Find(TmdbClient.QueryOf(c, [("page", PageArg(page))]), "page") == EntryFor(Some(PageArg(page)))
    ensures Find(TmdbClient.QueryOf(c, [("page", PageArg(page))]), "language") == Some(c.language)
  {
    var p := [("page", PageArg(page))];
    assert AtMostOnce(p, "page") && AtMostOnce(p, "language");
    assert KeysOf(p) == ["page"];
    TmdbClient.QueryEntries(c, p, "page");
    TmdbClient.QueryEntries(c, p, "language");
  }

  /** `response.results`: a `TypeError` when the response itself is absent. */
  function ResultsOf(response: Value): (r: Result<Value, Error>)
    ensures r.Err? <==> Nullish(response)
    ensures r.Ok? ==> r.value == GetOpt(response, "results")
  {
    if Nullish(response) then Err(TypeError("Cannot read properties of null or undefined"))
    else Ok(GetOpt(response, "results"))
  }

  /** The language the TV and person repositories fix for their lists and details. */
  const English := "en-US"

  /** `{ page, language: "en-US" }`. */
  function EnglishPage(page: Value): (p: Params)
    ensures KeysOf(p) == ["page", "language"]
    ensures Find(p, "page") == Some(PageArg(page)) && Find(p, "language") == Some(Str(English))
  {
    [("page", PageArg(page)), ("language", Str(English))]
  }

  /** A fixed `language` replaces the client's configured default language. */
  lemma EnglishQuery(c: TmdbClient.Client, page: Value)
    ensures Find(TmdbClient.QueryOf(c, EnglishPage(page)), "language") == Some(English)
    ensures Find(TmdbClient.QueryOf(c, EnglishPage(page)), "page") == EntryFor(Some(PageArg(page)))
  {
    var p := EnglishPage(page);
    assert AtMostOnce(p, "language") && AtMostOnce(p, "page");
    assert ParamText(Str(English)) == English;
    TmdbClient.QueryEntries(c, p, "language");
    TmdbClient.QueryEntries(c, p, "page");
  }

  /** `` `${id}` `` for a numeric id. */
  function IdText(id: int): (s: string)
    ensures ParseInt(s) == Some(id)
  {
    ParseIntOfIntToString(id);
    IntToString(id)
  }

  /** `` `${prefix}${id}${sub}` ``: different ids give different paths. */
  lemma IdPathInjective(prefix: string, a: int, b: int, sub: string)
    requires prefix + IdText(a) + sub == prefix + IdText(b) + sub
    ensures a == b
  {
    var s := prefix + IdText(a) + sub;
    var t := prefix + IdText(b) + sub;
    assert IdText(a) == s[|prefix|..|s| - |sub|];
    assert IdText(b) == t[|prefix|..|t| - |sub|];
  }
}
