/** String helpers with JavaScript meaning: `Array.prototype.join`, `String.prototype.split`
    on one character, `trim`, `includes`, decimal printing of integers and `parseInt(s, 10)`. */
module Strings {
  import opened Wrappers

  /** `parts.join(sep)`. */
  function Join(parts: seq<string>, sep: string): string
    decreases |parts|
  {
    if |parts| == 0 then ""
    else if |parts| == 1 then parts[0]
    else parts[0] + sep + Join(parts[1..], sep)
  }

  lemma JoinTwoOrMore(parts: seq<string>, sep: string)
    requires |parts| >= 2
    ensures Join(parts, sep) == parts[0] + sep + Join(parts[1..], sep)
  {
  }

  /** Joining `init + [last]` puts one separator before the last part. */
  lemma {:induction false} JoinSnoc(parts: seq<string>, last: string, sep: string)
    requires |parts| > 0
    ensures Join(parts + [last], sep) == Join(parts, sep) + sep + last
    decreases |parts|
  {
    if |parts| == 1 {
      assert parts + [last] == [parts[0], last];
      assert [parts[0], last][1..] == [last];
    } else {
      assert (parts + [last])[1..] == parts[1..] + [last];
      JoinSnoc(parts[1..], last, sep);
    }
  }

  /** A separator character that occurs in no part occurs in the join exactly at the seams. */
  lemma {:induction false} JoinAvoids(parts: seq<string>, sep: string, c: char)
    requires c !in sep
    requires forall i :: 0 <= i < |parts| ==> c !in parts[i]
    ensures c !in Join(parts, sep)
    decreases |parts|
  {
    if |parts| >= 2 {
      JoinAvoids(parts[1..], sep, c);
    }
  }

  predicate IsDigit(c: char) {
    '0' <= c <= '9'
  }

  predicate AllDigits(s: string) {
    forall i :: 0 <= i < |s| ==> IsDigit(s[i])
  }

  function DigitValue(c: char): nat
    requires IsDigit(c)
  {
    (c as int - '0' as int) as nat
  }

  function DigitChar(d: nat): (c: char)
    requires d < 10
    ensures IsDigit(c) && DigitValue(c) == d
  {
    ('0' as int + d) as char
  }

  /** The number a string of decimal digits denotes. */
  function DigitsValue(s: string): nat
    requires AllDigits(s)
    decreases |s|
  {
    if |s| == 0 then 0 else 10 * DigitsValue(s[..|s| - 1]) + DigitValue(s[|s| - 1])
  }

  function Pow10(w: nat): (p: nat)
    ensures p >= 1
  {
    if w == 0 then 1 else 10 * Pow10(w - 1)
  }

  /** A string of `w` digits denotes a number below `10^w`. */
  lemma {:induction false} DigitsValueBound(s: string)
    requires AllDigits(s)
    ensures DigitsValue(s) < Pow10(|s|)
    decreases |s|
  {
    if |s| > 0 {
      var init := s[..|s| - 1];
      DigitsValueBound(init);
      assert DigitsValue(s) == 10 * DigitsValue(init) + DigitValue(s[|s| - 1]);
      assert DigitsValue(init) + 1 <= Pow10(|init|);
    }
  }

  /** The shortest decimal numeral of `n`, as `String(n)` prints it. */
  function NatToString(n: nat): (s: string)
    ensures |s| > 0 && AllDigits(s)
    ensures |s| > 1 ==> s[0] != '0'
    decreases n
  {
    if n < 10 then [DigitChar(n)] else NatToString(n / 10) + [DigitChar(n % 10)]
  }

  /** Reading a printed natural back gives the same number. */
  lemma {:induction false} NatToStringRoundTrip(n: nat)
    ensures DigitsValue(NatToString(n)) == n
    decreases n
  {
    if n >= 10 {
      NatToStringRoundTrip(n / 10);
      var s := NatToString(n);
      assert s[..|s| - 1] == NatToString(n / 10);
    }
  }

  /** `String(n)` for an integer `n`: a minus sign, then the digits of `|n|`. */
  function IntToString(n: int): (s: string)
    ensures |s| > 0
    ensures n >= 0 ==> AllDigits(s)
    ensures n < 0 ==> s[0] == '-' && AllDigits(s[1..])
  {
    if n < 0 then "-" + NatToString(-n) else NatToString(n)
  }

  /** The white-space and line-terminator characters `String.prototype.trim` removes. */
  const JsWhiteSpace: set<char> := {
    ' ', '\t', '\n', '\U{000B}', '\U{000C}', '\r', '\U{00A0}', '\U{1680}',
    '\U{2000}', '\U{2001}', '\U{2002}', '\U{2003}', '\U{2004}', '\U{2005}', '\U{2006}',
    '\U{2007}', '\U{2008}', '\U{2009}', '\U{200A}', '\U{2028}', '\U{2029}', '\U{202F}',
    '\U{205F}', '\U{3000}', '\U{FEFF}'
  }

  predicate IsWhite(c: char) {
    c in JsWhiteSpace
  }

  /** Every character of `s` at an index in `[lo, hi)` is white space. */
  predicate WhiteBetween(s: string, lo: int, hi: int)
    requires 0 <= lo <= hi <= |s|
  {
    forall k :: lo <= k < hi ==> IsWhite(s[k])
  }

  /** The first index at or after `k` that does not hold white space (or `|s|`). */
  function SkipWhite(s: string, k: nat): (r: nat)
    requires k <= |s|
    ensures k <= r <= |s| && WhiteBetween(s, k, r)
    ensures r < |s| ==> !IsWhite(s[r])
    decreases |s| - k
  {
    if k < |s| && IsWhite(s[k]) then SkipWhite(s, k + 1) else k
  }

  /** The end of `s[lo..k]` once trailing white space is dropped. */
  function SkipWhiteBack(s: string, lo: nat, k: nat): (r: nat)
    requires lo <= k <= |s|
    ensures lo <= r <= k && WhiteBetween(s, r, k)
    ensures r > lo ==> !IsWhite(s[r - 1])
    decreases k
  {
    if k > lo && IsWhite(s[k - 1]) then SkipWhiteBack(s, lo, k - 1) else k
  }

  /** `s.trim()`: the infix of `s` left once white space is removed from both ends; it
      neither starts nor ends with white space, and only white space was removed. */
  function Trim(s: string): (r: string)
    ensures |r| > 0 ==> !IsWhite(r[0]) && !IsWhite(r[|r| - 1])
    ensures exists a :: (0 <= a <= |s| - |r| && r == s[a..a + |r|]
                         && WhiteBetween(s, 0, a) && WhiteBetween(s, a + |r|, |s|))
  {
    var a := SkipWhite(s, 0);
    var b := SkipWhiteBack(s, a, |s|);
    assert b > a ==> s[a..b][0] == s[a] && s[a..b][b - a - 1] == s[b - 1];
    s[a..b]
  }

  /** A string is blank after trimming exactly when it is all white space. */
  lemma TrimEmptyIffWhite(s: string)
    ensures Trim(s) == "" <==> WhiteBetween(s, 0, |s|)
  {
    var r := Trim(s);
    var a :| 0 <= a <= |s| - |r| && r == s[a..a + |r|]
             && WhiteBetween(s, 0, a) && WhiteBetween(s, a + |r|, |s|);
    if r != "" {
      assert s[a] == r[0];
    }
  }

  /** `sub` occurs in `s` starting at index `i`. */
  predicate OccursAt(s: string, sub: string, i: int) {
    0 <= i <= |s| - |sub| && s[i..i + |sub|] == sub
  }

  /** `s.includes(sub)`. */
  predicate Contains(s: string, sub: string) {
    exists i :: 0 <= i <= |s| - |sub| && OccursAt(s, sub, i)
  }

  /** `s.includes(sub)` computed by scanning; agrees with `Contains`. */
  function Includes(s: string, sub: string): (b: bool)
    ensures b <==> Contains(s, sub)
    decreases |s|
  {
    if |s| < |sub| then false
    else if s[..|sub|] == sub then
      assert OccursAt(s, sub, 0);
      true
    else
      var rest := Includes(s[1..], sub);
      if rest then
        var i :| 0 <= i <= |s[1..]| - |sub| && OccursAt(s[1..], sub, i);
        assert s[i + 1..i + 1 + |sub|] == s[1..][i..i + |sub|];
        assert OccursAt(s, sub, i + 1);
        true
      else
        assert !Contains(s, sub) by {
          if Contains(s, sub) {
            var i :| 0 <= i <= |s| - |sub| && OccursAt(s, sub, i);
            assert i != 0;
            assert s[1..][i - 1..i - 1 + |sub|] == s[i..i + |sub|];
            assert OccursAt(s[1..], sub, i - 1);
          }
        }
        false
  }

  /** Prefixing `s` with a string none of whose characters can start an occurrence of `sub`
      does not change whether `s` contains `sub`. */
  lemma ContainsAfterPrefix(pre: string, s: string, sub: string)
    requires |sub| > 0
    requires forall k :: 0 <= k < |pre| ==> pre[k] != sub[0]
    ensures Contains(pre + s, sub) <==> Contains(s, sub)
  {
    var t := pre + s;
    if Contains(t, sub) {
      var i :| 0 <= i <= |t| - |sub| && OccursAt(t, sub, i);
      assert t[i] == t[i..i + |sub|][0] == sub[0];
      assert i >= |pre|;
      assert s[i - |pre|..i - |pre| + |sub|] == t[i..i + |sub|];
      assert OccursAt(s, sub, i - |pre|);
    }
    if Contains(s, sub) {
      var i :| 0 <= i <= |s| - |sub| && OccursAt(s, sub, i);
      assert t[i + |pre|..i + |pre| + |sub|] == s[i..i + |sub|];
      assert OccursAt(t, sub, i + |pre|);
    }
  }

  /** Index of the first `c` in `s`, if any. */
  function IndexOf(s: string, c: char): (r: Option<nat>)
    ensures r.None? <==> c !in s
    ensures r.Some? ==> r.value < |s| && s[r.value] == c && c !in s[..r.value]
    decreases |s|
  {
    if |s| == 0 then None
    else if s[0] == c then Some(0)
    else
      match IndexOf(s[1..], c)
      case None => None
      case Some(k) =>
        assert s[..k + 1] == [s[0]] + s[1..][..k];
        Some(k + 1)
  }

  /** `s.split(c)` for a one-character separator: the pieces between occurrences of `c`. */
  function Split(s: string, c: char): (r: seq<string>)
    ensures |r| > 0
    ensures forall i :: 0 <= i < |r| ==> c !in r[i]
    decreases |s|
  {
    match IndexOf(s, c)
    case None => [s]
    case Some(k) => [s[..k]] + Split(s[k + 1..], c)
  }

  /** Joining the pieces of a split with the separator restores the string. */
  lemma {:induction false} SplitJoin(s: string, c: char)
    ensures Join(Split(s, c), [c]) == s
    decreases |s|
  {
    match IndexOf(s, c)
    case None =>
    case Some(k) =>
      SplitJoin(s[k + 1..], c);
      var tail := Split(s[k + 1..], c);
      var parts := [s[..k]] + tail;
      assert parts[1..] == tail;
      JoinTwoOrMore(parts, [c]);
      assert s == s[..k] + [c] + s[k + 1..];
  }

  /** JavaScript `parseInt(s, 10)`: skip leading white space, read an optional sign and the
      longest run of decimal digits; no digits gives `NaN`, written `None`. */
  function ParseInt(s: string): (r: Option<int>)
  {
    var t := s[SkipWhite(s, 0)..];
    var neg := |t| > 0 && t[0] == '-';
    var body := if |t| > 0 && (t[0] == '-' || t[0] == '+') then t[1..] else t;
    var digits := DigitPrefix(body);
    var v: int := if |digits| == 0 then 0 else DigitsValue(digits);
    if |digits| == 0 then None else Some(if neg then -v else v)
  }

  /** The longest prefix of `s` made of decimal digits. */
  function DigitPrefix(s: string): (d: string)
    ensures AllDigits(d) && d <= s
    ensures |d| < |s| ==> !IsDigit(s[|d|])
    decreases |s|
  {
    if |s| > 0 && IsDigit(s[0]) then [s[0]] + DigitPrefix(s[1..]) else ""
  }

  /** `parseInt` reads back what `String` printed. */
  lemma ParseIntOfIntToString(n: int)
    ensures ParseInt(IntToString(n)) == Some(n)
  {
    var s := IntToString(n);
    var m: nat := if n < 0 then -n else n;
    var digits := NatToString(m);
    DigitNotWhite(digits[0]);
    assert !IsWhite('-');
    if n < 0 {
      assert s == "-" + digits;
      assert s[1..] == digits;
    }
    assert SkipWhite(s, 0) == 0;
    DigitPrefixAll(digits);
    NatToStringRoundTrip(m);
  }

  lemma DigitNotWhite(c: char)
    requires IsDigit(c)
    ensures !IsWhite(c)
  {
  }


  /** Distinct integers print differently, so a printed id identifies its number. */
  lemma IntToStringInjective(a: int, b: int)
    requires IntToString(a) == IntToString(b)
    ensures a == b
  {
    ParseIntOfIntToString(a);
    ParseIntOfIntToString(b);
  }

  lemma {:induction false} DigitPrefixAll(s: string)
    requires AllDigits(s)
    ensures DigitPrefix(s) == s
    decreases |s|
  {
    if |s| > 0 {
      DigitPrefixAll(s[1..]);
    }
  }

  /** A string that neither starts nor ends with white space is its own trim. */
  lemma TrimNoWhite(s: string)
    requires |s| > 0 ==> !IsWhite(s[0]) && !IsWhite(s[|s| - 1])
    ensures Trim(s) == s
  {
  }

  /** The digit run of a numeral followed by a non-digit is the numeral. */
  lemma {:induction false} DigitPrefixStops(s: string, r: string)
    requires AllDigits(s) && |r| > 0 && !IsDigit(r[0])
    ensures DigitPrefix(s + r) == s
    decreases |s|
  {
    if |s| > 0 {
      assert (s + r)[1..] == s[1..] + r;
      DigitPrefixStops(s[1..], r);
    }
  }

  /** Two texts that end in the same way agree on the shorter of the two endings. */
  lemma SameEnding(p: string, s1: string, q: string, s2: string)
    requires p + s1 == q + s2 && |s2| <= |s1|
    ensures s1[|s1| - |s2|..] == s2
  {
    var m := p + s1;
    assert m[|m| - |s2|..] == s2;
    assert m[|m| - |s2|..] == s1[|s1| - |s2|..];
  }

  /** Two texts joined by a separator that occurs in neither left part split the same way. */
  lemma SplitAtSeparator(a: string, b: string, c: string, d: string, sep: char)
    requires sep !in a && sep !in c
    requires a + [sep] + b == c + [sep] + d
    ensures a == c && b == d
  {
    var s := a + [sep] + b;
    assert s[|a|] == sep && s[|c|] == sep;
    forall k | 0 <= k < |a|
      ensures s[k] == a[k]
    {
    }
    forall k | 0 <= k < |c|
      ensures s[k] == c[k]
    {
    }
    assert a == s[..|a|] && c == s[..|c|];
    assert b == s[|a| + 1..] && d == s[|c| + 1..];
  }
}
