/** Calendar dates as the entities hold them. TMDB sends dates as `YYYY-MM-DD` text; the
    entities turn that text into a JavaScript `Date` after replacing `-` by `/`, and read
    back only its year, month and day. */
module Dates {
  import opened Wrappers
  import opened Strings

  /** A `Date` object: a calendar day, or the "Invalid Date" whose fields read as `NaN`. */
  datatype Date = Calendar(year: int, month: int, day: int) | InvalidDate

  predicate LeapYear(y: int) {
    (y % 4 == 0 && y % 100 != 0) || y % 400 == 0
  }

  function DaysInMonth(y: int, m: int): int
    requires 1 <= m <= 12
  {
    if m == 2 then (if LeapYear(y) then 29 else 28)
    else if m in {4, 6, 9, 11} then 30
    else 31
  }

  /** A day that exists in the Gregorian calendar. */
  predicate ValidDay(y: int, m: int, d: int) {
    1 <= m <= 12 && 1 <= d <= DaysInMonth(y, m)
  }

  /** `n` written with exactly `w` decimal digits, zero-padded on the left. */
  function FixedDigits(n: nat, w: nat): (s: string)
    requires n < Pow10(w)
    ensures |s| == w && AllDigits(s)
    ensures DigitsValue(s) == n
    decreases w
  {
    if w == 0 then "" else
      var s := FixedDigits(n / 10, w - 1) + [DigitChar(n % 10)];
      assert s[..|s| - 1] == FixedDigits(n / 10, w - 1);
      s
  }

  /** Padding the value of a digit string to its own width gives the string back. */
  lemma {:induction false} FixedDigitsOfValue(s: string)
    requires AllDigits(s)
    ensures DigitsValue(s) < Pow10(|s|)
    ensures FixedDigits(DigitsValue(s), |s|) == s
    decreases |s|
  {
    DigitsValueBound(s);
    if |s| > 0 {
      var init := s[..|s| - 1];
      FixedDigitsOfValue(init);
      var v := DigitsValue(s);
      assert v / 10 == DigitsValue(init) && v % 10 == DigitValue(s[|s| - 1]);
      assert DigitChar(v % 10) == s[|s| - 1];
      assert FixedDigits(v, |s|) == FixedDigits(v / 10, |init|) + [DigitChar(v % 10)];
      assert s == init + [s[|s| - 1]];
    }
  }

  /** The shape `YYYY-MM-DD` (the only shape TMDB sends). */
  predicate DateShaped(s: string) {
    |s| == 10 && s[4] == '-' && s[7] == '-'
    && AllDigits(s[..4]) && AllDigits(s[5..7]) && AllDigits(s[8..])
  }

  /** A `YYYY-MM-DD` text whose three digit groups denote `y`, `m` and `d`. */
  predicate Denotes(s: string, y: int, m: int, d: int) {
    DateShaped(s) && DigitsValue(s[..4]) == y && DigitsValue(s[5..7]) == m && DigitsValue(s[8..]) == d
  }

  /** `new Date(s.replace(/-/g, '/'))` for the text of a TMDB date: a well-formed existing
      day gives that day, anything else the invalid date. */
  function ParseDate(s: string): (d: Date)
    ensures d.Calendar? ==> DateShaped(s) && ValidDay(d.year, d.month, d.day) && 0 <= d.year < 10000
  {
    if DateShaped(s) then
      var y := DigitsValue(s[..4]);
      var m := DigitsValue(s[5..7]);
      var d := DigitsValue(s[8..]);
      DigitsValueBound(s[..4]);
      if ValidDay(y, m, d) then Calendar(y, m, d) else InvalidDate
    else InvalidDate
  }

  /** Every month has at most 31 days. */
  lemma DayBound(y: int, m: int, d: int)
    requires ValidDay(y, m, d)
    ensures 1 <= m <= 12 && 1 <= d <= 31
  {
  }

  /** The `YYYY-MM-DD` text of a day. */
  function FormatDate(y: int, m: int, d: int): (s: string)
    requires 0 <= y < 10000 && ValidDay(y, m, d)
    ensures Denotes(s, y, m, d)
  {
    DayBound(y, m, d);
    FormatGroups(y, m, d)
  }

  /** The digit groups of `y`, `m` and `d`, four, two and two digits wide, joined by dashes. */
  function FormatGroups(y: nat, m: nat, d: nat): (s: string)
    requires y < 10000 && m < 100 && d < 100
    ensures Denotes(s, y, m, d)
  {
    GroupsDenote(y, m, d);
    FixedDigits(y, 4) + "-" + FixedDigits(m, 2) + "-" + FixedDigits(d, 2)
  }

  /** Four, two and two digits are wide enough for a year, a month and a day, and the padded
      groups joined by dashes denote them. */
  lemma GroupsDenote(y: nat, m: nat, d: nat)
    requires y < 10000 && m < 100 && d < 100
    ensures y < Pow10(4) && m < Pow10(2) && d < Pow10(2)
    ensures Denotes(FixedDigits(y, 4) + "-" + FixedDigits(m, 2) + "-" + FixedDigits(d, 2), y, m, d)
  {
    assert Pow10(2) == 100;
    assert Pow10(4) == 100 * Pow10(2);
    DateParts(FixedDigits(y, 4), FixedDigits(m, 2), FixedDigits(d, 2));
  }

  /** Three digit groups, four, two and two wide, joined by dashes denote their values. */
  lemma DateParts(ys: string, ms: string, ds: string)
    requires |ys| == 4 && |ms| == 2 && |ds| == 2
    requires AllDigits(ys) && AllDigits(ms) && AllDigits(ds)
    ensures Denotes(ys + "-" + ms + "-" + ds, DigitsValue(ys), DigitsValue(ms), DigitsValue(ds))
  {
    var rest := "-" + ms + "-" + ds;
    var s := ys + "-" + ms + "-" + ds;
    assert s == ys + rest;
    assert s[..4] == ys;
    assert s[5..7] == ms;
    assert s[8..] == ds;
  }

  /** Formatting a day and parsing it back gives the same day. */
  lemma ParseFormat(y: int, m: int, d: int)
    requires 0 <= y < 10000 && ValidDay(y, m, d)
    ensures ParseDate(FormatDate(y, m, d)) == Calendar(y, m, d)
  {
  }

  /** A `YYYY-MM-DD` text is its three digit groups joined by dashes. */
  lemma ShapedJoin(s: string)
    requires DateShaped(s)
    ensures s == s[..4] + "-" + s[5..7] + "-" + s[8..]
  {
    assert s == s[..4] + s[4..5] + s[5..7] + s[7..8] + s[8..];
  }

  /** A text that parses to a day is exactly that day's text. */
  lemma FormatParse(s: string)
    requires ParseDate(s).Calendar?
    ensures FormatDate(ParseDate(s).year, ParseDate(s).month, ParseDate(s).day) == s
  {
    var y, m, d := DigitsValue(s[..4]), DigitsValue(s[5..7]), DigitsValue(s[8..]);
    assert ParseDate(s) == Calendar(y, m, d);
    FixedDigitsOfValue(s[..4]);
    FixedDigitsOfValue(s[5..7]);
    FixedDigitsOfValue(s[8..]);
    assert FormatGroups(y, m, d) == s[..4] + "-" + s[5..7] + "-" + s[8..];
    ShapedJoin(s);
  }

  /** `date ? date.getFullYear().toString() : 'N/A'`: an invalid date prints `NaN`. */
  function YearText(d: Option<Date>): (t: string)
    ensures d.None? <==> t == "N/A"
    ensures d == Some(InvalidDate) <==> t == "NaN"
  {
    match d
    case None => "N/A"
    case Some(Calendar(y, _, _)) => IntToString(y)
    case Some(InvalidDate) => "NaN"
  }

  /** The year printed for a parsed TMDB date is the number its first four digits denote. */
  lemma YearTextOfParsed(s: string)
    requires ParseDate(s).Calendar?
    ensures ParseInt(YearText(Some(ParseDate(s)))) == Some(DigitsValue(s[..4]))
  {
    ParseIntOfIntToString(ParseDate(s).year);
  }

  /** Day-of-year order: is `(m1, d1)` before `(m2, d2)` in the same year? */
  predicate EarlierInYear(m1: int, d1: int, m2: int, d2: int) {
    m1 < m2 || (m1 == m2 && d1 < d2)
  }

  /** Calendar order on days. */
  predicate OnOrBefore(y1: int, m1: int, d1: int, y2: int, m2: int, d2: int) {
    y1 < y2 || (y1 == y2 && !EarlierInYear(m2, d2, m1, d1))
  }
}
