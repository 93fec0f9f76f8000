/** Query parameters as JavaScript object literals: an ordered list of distinct keys with
    values, object spread (`{...a, ...b}`), and the `URLSearchParams` rendering the clients
    use to build request URLs. */
module Query {
  import opened Wrappers
  import opened Strings
  import opened Js

  /** An object literal such as `{ page, query, include_adult: false }`, in key order. */
  type Params = seq<(string, Value)>

  /** A rendered query: the `(name, text)` entries of a `URLSearchParams`, in order. */
  type Entries = seq<(string, string)>

  function KeysOf<V>(p: seq<(string, V)>): (ks: seq<string>)
    ensures |ks| == |p| && forall i :: 0 <= i < |p| ==> ks[i] == p[i].0
    decreases |p|
  {
    if |p| == 0 then [] else [p[0].0] + KeysOf(p[1..])
  }

  /** An object never holds the same key twice. */
  predicate DistinctKeys<V>(p: seq<(string, V)>) {
    forall i, j :: 0 <= i < j < |p| ==> p[i].0 != p[j].0
  }

  /** Distinct keys in both halves and none shared across them. */
  lemma DistinctSplit<V>(p: seq<(string, V)>, n: nat)
    requires n <= |p| && DistinctKeys(p[..n]) && DistinctKeys(p[n..])
    requires forall i, j :: 0 <= i < n <= j < |p| ==> p[i].0 != p[j].0
    ensures DistinctKeys(p)
  {
    forall i, j | 0 <= i < j < |p| ensures p[i].0 != p[j].0 {
      if j < n {
        assert p[..n][i] == p[i] && p[..n][j] == p[j];
      } else if n <= i {
        assert p[n..][i - n] == p[i] && p[n..][j - n] == p[j];
      }
    }
  }

  /** `k` is a key at most once; every JavaScript object satisfies this for every key. */
  predicate AtMostOnce<V>(p: seq<(string, V)>, k: string) {
    forall i, j :: 0 <= i < j < |p| && p[i].0 == k ==> p[j].0 != k
  }

  /** `k` is the key at index `i` and at no other. */
  predicate OnlyAt<V>(p: seq<(string, V)>, k: string, i: int) {
    0 <= i < |p| && p[i].0 == k && forall j :: 0 <= j < |p| && p[j].0 == k ==> j == i
  }

  /** The value stored under `k`, if the key is present. */
  function Find<V>(p: seq<(string, V)>, k: string): (r: Option<V>)
    ensures r.None? <==> k !in KeysOf(p)
    ensures DistinctKeys(p) ==> forall i :: 0 <= i < |p| && p[i].0 == k ==> r == Some(p[i].1)
    decreases |p|
  {
    if |p| == 0 then None
    else if p[0].0 == k then Some(p[0].1)
    else
      var r := Find(p[1..], k);
      assert KeysOf(p) == [p[0].0] + KeysOf(p[1..]);
      r
  }

  /** `obj[k]`: `undefined` for a missing key. */
  function Lookup(p: Params, k: string): Value {
    Find(p, k).GetOr(Undefined)
  }

  /** `obj[k] = v`: replaces the value in place when `k` is present, else appends the key. */
  function Assign(p: Params, k: string, v: Value): (r: Params)
    ensures |r| == if k in KeysOf(p) then |p| else |p| + 1
    decreases |p|
  {
    if |p| == 0 then [(k, v)]
    else if p[0].0 == k then [(k, v)] + p[1..]
    else [p[0]] + Assign(p[1..], k, v)
  }

  /** A key found at one index only reads as the value stored there. */
  lemma {:induction false} OnlyAtFind<V>(p: seq<(string, V)>, k: string, i: int)
    requires OnlyAt(p, k, i)
    ensures AtMostOnce(p, k) && Find(p, k) == Some(p[i].1)
    decreases |p|
  {
    if i > 0 {
      assert p[0].0 != k;
      assert forall j :: 0 <= j < |p[1..]| ==> p[1..][j] == p[j + 1];
      OnlyAtFind(p[1..], k, i - 1);
    }
  }

  /** After `obj[k] = v`, reading `k` gives `v` and every other key reads as before. */
  lemma {:induction false} AssignFind(p: Params, k: string, v: Value, k': string)
    ensures Find(Assign(p, k, v), k') == if k' == k then Some(v) else Find(p, k')
    decreases |p|
  {
    if |p| > 0 && p[0].0 != k {
      AssignFind(p[1..], k, v, k');
    }
  }

  /** Assignment keeps the key order: an existing key stays in place, a new one goes last. */
  lemma {:induction false} AssignKeys(p: Params, k: string, v: Value)
    ensures KeysOf(Assign(p, k, v)) == if k in KeysOf(p) then KeysOf(p) else KeysOf(p) + [k]
    decreases |p|
  {
    if |p| > 0 && p[0].0 != k {
      AssignKeys(p[1..], k, v);
      assert KeysOf(p) == [p[0].0] + KeysOf(p[1..]);
    }
  }

  lemma AssignDistinct(p: Params, k: string, v: Value)
    requires DistinctKeys(p)
    ensures DistinctKeys(Assign(p, k, v))
  {
    var r := Assign(p, k, v);
    AssignKeys(p, k, v);
    forall i, j | 0 <= i < j < |r| ensures r[i].0 != r[j].0 {
      assert KeysOf(r)[i] == r[i].0 && KeysOf(r)[j] == r[j].0;
      if j < |p| {
        assert KeysOf(p)[i] == p[i].0 && KeysOf(p)[j] == p[j].0;
      } else {
        assert KeysOf(p)[i] == p[i].0;
      }
    }
  }

  /** Assignment never duplicates a key. */
  lemma AssignOnce(p: Params, k0: string, v: Value, k: string)
    requires AtMostOnce(p, k)
    ensures AtMostOnce(Assign(p, k0, v), k)
  {
    var r := Assign(p, k0, v);
    AssignKeys(p, k0, v);
    forall i | 0 <= i < |p| ensures r[i].0 == p[i].0 {
      assert KeysOf(r)[i] == KeysOf(p)[i];
    }
    if k0 !in KeysOf(p) {
      assert r[|p|].0 == KeysOf(r)[|p|] == k0;
    }
  }

  /** `{...a, ...b}`: every key of `b` assigned, in order, over a copy of `a`. */
  function Spread(a: Params, b: Params): (r: Params)
    decreases |b|
  {
    if |b| == 0 then a else Spread(Assign(a, b[0].0, b[0].1), b[1..])
  }

  /** A spread never duplicates a key of its left side. */
  lemma {:induction false} SpreadOnce(a: Params, b: Params, k: string)
    requires AtMostOnce(a, k)
    ensures AtMostOnce(Spread(a, b), k)
    decreases |b|
  {
    if |b| > 0 {
      AssignOnce(a, b[0].0, b[0].1, k);
      SpreadOnce(Assign(a, b[0].0, b[0].1), b[1..], k);
    }
  }

  /** In `{...a, ...b}` the values of `b` win, and keys found only in `a` keep theirs. */
  lemma {:induction false} SpreadFind(a: Params, b: Params, k: string)
    requires AtMostOnce(b, k)
    ensures Find(Spread(a, b), k) == if k in KeysOf(b) then Find(b, k) else Find(a, k)
    decreases |b|
  {
    if |b| > 0 {
      var a' := Assign(a, b[0].0, b[0].1);
      var b' := b[1..];
      assert AtMostOnce(b', k);
      SpreadFind(a', b', k);
      AssignFind(a, b[0].0, b[0].1, k);
      assert KeysOf(b) == [b[0].0] + KeysOf(b');
      if k in KeysOf(b') {
        var j :| 0 <= j < |b'| && KeysOf(b')[j] == k;
        assert b[j + 1].0 == k;
        assert k != b[0].0;
      }
    }
  }

  /** A spread keeps the keys of `a` first, in their order. */
  lemma {:induction false} SpreadKeysPrefix(a: Params, b: Params)
    ensures KeysOf(a) <= KeysOf(Spread(a, b))
    decreases |b|
  {
    if |b| > 0 {
      var a' := Assign(a, b[0].0, b[0].1);
      AssignKeys(a, b[0].0, b[0].1);
      SpreadKeysPrefix(a', b[1..]);
    }
  }

  /** The keys of `{...a, ...b}` are exactly those of `a` and `b`, each once. */
  lemma SpreadKeys(a: Params, b: Params)
    requires DistinctKeys(a) && DistinctKeys(b)
    ensures DistinctKeys(Spread(a, b))
    ensures forall k :: k in KeysOf(Spread(a, b)) <==> k in KeysOf(a) || k in KeysOf(b)
  {
    SpreadDistinct(a, b);
    forall k ensures k in KeysOf(Spread(a, b)) <==> k in KeysOf(a) || k in KeysOf(b) {
      SpreadFind(a, b, k);
    }
  }

  lemma {:induction false} SpreadDistinct(a: Params, b: Params)
    requires DistinctKeys(a)
    ensures DistinctKeys(Spread(a, b))
    decreases |b|
  {
    if |b| > 0 {
      AssignDistinct(a, b[0].0, b[0].1);
      SpreadDistinct(Assign(a, b[0].0, b[0].1), b[1..]);
    }
  }

  /** The text `URLSearchParams.append` receives for a value: an array is joined with `,`,
      anything else goes through `toString`. */
  function ParamText(v: Value): string {
    match v
    case Arr(items) => JoinValues(items, ",")
    case _ => ToStr(v)
  }

  /** The array branch only spells out what `toString` already does for arrays. */
  lemma ParamTextIsToStr(v: Value)
    ensures ParamText(v) == ToStr(v)
  {
  }

  /** The entries appended for a merged parameter object: keys in order, `undefined` and
      `null` values skipped, everything else converted to text. */
  function SearchEntries(p: Params): (q: Entries)
    ensures |q| <= |p|
    decreases |p|
  {
    if |p| == 0 then []
    else if Nullish(p[0].1) then SearchEntries(p[1..])
    else [(p[0].0, ParamText(p[0].1))] + SearchEntries(p[1..])
  }

  /** What the query holds for a key: nothing for a missing or nullish value, otherwise the
      value's text. */
  function EntryFor(v: Option<Value>): Option<string> {
    match v
    case None => None
    case Some(x) => if Nullish(x) then None else Some(ParamText(x))
  }

  /** Each key of the query reads as its parameter prescribes. */
  lemma {:induction false} SearchEntriesFind(p: Params, k: string)
    requires AtMostOnce(p, k)
    ensures Find(SearchEntries(p), k) == EntryFor(Find(p, k))
    decreases |p|
  {
    if |p| > 0 {
      assert AtMostOnce(p[1..], k);
      SearchEntriesFind(p[1..], k);
    }
  }

  /** The query of `{...d, ...p}` for one key: the caller's entry if `p` has the key, else
      the default's. */
  lemma SpreadEntriesFind(d: Params, p: Params, k: string)
    requires AtMostOnce(d, k) && AtMostOnce(p, k)
    ensures Find(SearchEntries(Spread(d, p)), k) ==
      EntryFor(if k in KeysOf(p) then Find(p, k) else Find(d, k))
  {
    SpreadFind(d, p, k);
    SpreadOnce(d, p, k);
    SearchEntriesFind(Spread(d, p), k);
  }

  /** Every query key comes from the parameters, at most once. */
  lemma {:induction false} SearchEntriesKeys(p: Params)
    requires DistinctKeys(p)
    ensures DistinctKeys(SearchEntries(p))
    ensures forall k :: k in KeysOf(SearchEntries(p)) ==> k in KeysOf(p)
    decreases |p|
  {
    if |p| > 0 {
      assert DistinctKeys(p[1..]);
      SearchEntriesKeys(p[1..]);
      var rest := SearchEntries(p[1..]);
      assert KeysOf(p) == [p[0].0] + KeysOf(p[1..]);
      if !Nullish(p[0].1) {
        var q := SearchEntries(p);
        assert q == [(p[0].0, ParamText(p[0].1))] + rest;
        assert KeysOf(q) == [p[0].0] + KeysOf(rest);
        forall j | 0 <= j < |rest| ensures rest[j].0 != p[0].0 {
          assert KeysOf(rest)[j] == rest[j].0;
          assert rest[j].0 in KeysOf(rest);
          var i :| 0 <= i < |p[1..]| && KeysOf(p[1..])[i] == rest[j].0;
          assert p[i + 1].0 == rest[j].0;
        }
      }
    }
  }

  /** `URLSearchParams.toString()`: `name=value` pairs joined with `&`, each side passed
      through the form-urlencoded serializer `enc`. */
  function Render(q: Entries, enc: string -> string): string {
    Join(Pieces(q, enc), "&")
  }

  function Pieces(q: Entries, enc: string -> string): (ps: seq<string>)
    ensures |ps| == |q|
    ensures forall i :: 0 <= i < |q| ==> ps[i] == enc(q[i].0) + "=" + enc(q[i].1)
  {
    seq(|q|, i requires 0 <= i < |q| => enc(q[i].0) + "=" + enc(q[i].1))
  }

  /** The form-urlencoded serializer is injective and escapes `&` and `=`. */
  ghost predicate GoodEncoder(enc: string -> string) {
    (forall a, b :: enc(a) == enc(b) ==> a == b)
    && (forall a :: '&' !in enc(a) && '=' !in enc(a))
  }

  /** Splitting a join on a character no part contains gives the parts back. */
  lemma {:induction false} SplitOfJoin(parts: seq<string>, c: char)
    requires |parts| > 0
    requires forall i :: 0 <= i < |parts| ==> c !in parts[i]
    ensures Split(Join(parts, [c]), c) == parts
    decreases |parts|
  {
    if |parts| >= 2 {
      var tail := Join(parts[1..], [c]);
      SplitOfJoin(parts[1..], c);
      JoinTwoOrMore(parts, [c]);
      var s := parts[0] + ([c] + tail);
      assert Join(parts, [c]) == s;
      PrefixIndex(parts[0], c, [c] + tail);
      SplitStep(s, c, |parts[0]|);
      assert s[..|parts[0]|] == parts[0];
      assert s[|parts[0]| + 1..] == tail;
      assert parts == [parts[0]] + parts[1..];
    }
  }

  lemma SplitStep(s: string, c: char, k: nat)
    requires IndexOf(s, c) == Some(k)
    ensures Split(s, c) == [s[..k]] + Split(s[k + 1..], c)
  {
  }

  lemma PrefixIndex(pre: string, c: char, rest: string)
    requires c !in pre && |rest| > 0 && rest[0] == c
    ensures IndexOf(pre + rest, c) == Some(|pre|)
  {
    var s := pre + rest;
    assert s[|pre|] == c;
    assert s[..|pre|] == pre;
  }

  /** A rendered query determines its entries: with an injective serializer that escapes
      the delimiters, different entry lists never render to the same string. */
  lemma RenderInjective(q1: Entries, q2: Entries, enc: string -> string)
    requires GoodEncoder(enc)
    requires Render(q1, enc) == Render(q2, enc)
    ensures q1 == q2
  {
    if |q1| == 0 || |q2| == 0 {
      if |q1| > 0 { RenderNonEmpty(q1, enc); }
      if |q2| > 0 { RenderNonEmpty(q2, enc); }
    } else {
      var p1 := Pieces(q1, enc);
      var p2 := Pieces(q2, enc);
      PiecesAvoid(q1, enc);
      PiecesAvoid(q2, enc);
      SplitOfJoin(p1, '&');
      SplitOfJoin(p2, '&');
      assert p1 == p2;
      forall i | 0 <= i < |q1| ensures q1[i] == q2[i] {
        PieceDetermines(q1[i], q2[i], enc);
      }
    }
  }

  lemma RenderNonEmpty(q: Entries, enc: string -> string)
    requires |q| > 0
    ensures Render(q, enc) != ""
  {
    var ps := Pieces(q, enc);
    if |ps| >= 2 {
      JoinTwoOrMore(ps, "&");
    }
    assert |ps[0]| > 0;
  }

  lemma PiecesAvoid(q: Entries, enc: string -> string)
    requires GoodEncoder(enc)
    ensures forall i :: 0 <= i < |q| ==> '&' !in Pieces(q, enc)[i]
  {
    forall i | 0 <= i < |q| ensures '&' !in Pieces(q, enc)[i] {
      assert '&' !in enc(q[i].0) && '&' !in enc(q[i].1);
    }
  }

  lemma PieceDetermines(e1: (string, string), e2: (string, string), enc: string -> string)
    requires GoodEncoder(enc)
    requires enc(e1.0) + "=" + enc(e1.1) == enc(e2.0) + "=" + enc(e2.1)
    ensures e1 == e2
  {
    assert '=' !in enc(e1.0) && '=' !in enc(e2.0) && '=' !in enc(e1.1) && '=' !in enc(e2.1);
    SplitOfJoin([enc(e1.0), enc(e1.1)], '=');
    SplitOfJoin([enc(e2.0), enc(e2.1)], '=');
    JoinTwoOrMore([enc(e1.0), enc(e1.1)], "=");
    JoinTwoOrMore([enc(e2.0), enc(e2.1)], "=");
    assert [enc(e1.0), enc(e1.1)][1..] == [enc(e1.1)];
    assert [enc(e2.0), enc(e2.1)][1..] == [enc(e2.1)];
  }

  /** `${endpoint}?${searchParams.toString()}`. */
  function WithQuery(endpoint: string, q: Entries, enc: string -> string): (url: string)
    ensures |url| > |endpoint| && url[..|endpoint|] == endpoint && url[|endpoint|] == '?'
  {
    endpoint + "?" + Render(q, enc)
  }

  /** For an endpoint without `?`, the URL splits back into the endpoint and the entries. */
  lemma WithQueryInjective(e1: string, q1: Entries, e2: string, q2: Entries, enc: string -> string)
    requires GoodEncoder(enc)
    requires '?' !in e1 && '?' !in e2
    requires WithQuery(e1, q1, enc) == WithQuery(e2, q2, enc)
    ensures e1 == e2 && q1 == q2
  {
    var u := WithQuery(e1, q1, enc);
    assert u == e1 + ("?" + Render(q1, enc));
    assert u == e2 + ("?" + Render(q2, enc));
    PrefixIndex(e1, '?', "?" + Render(q1, enc));
    PrefixIndex(e2, '?', "?" + Render(q2, enc));
    assert |e1| == |e2|;
    assert e1 == u[..|e1|] == e2;
    assert Render(q1, enc) == u[|e1| + 1..] == Render(q2, enc);
    RenderInjective(q1, q2, enc);
  }
}
