/** The pure helpers of the console view formatter: the media-type icon, the gender text,
    truncation with an ellipsis and greedy word wrapping. Lengths are counted in characters. */
module Formatter {
  import opened Strings
  import opened Js
  import Filters
  import Entities

  // ---------------------------------------------------------------- icons

  const MovieIcon: string := "\U{1F3AC}"
  const TvIcon: string := "\U{1F4FA}"
  const PersonIcon: string := "\U{1F464}"
  const UnknownIcon: string := "\U{2753}"

  /** `getMediaTypeIcon()`: an icon for the three media types, a question mark otherwise. */
  function MediaTypeIcon(mediaType: string): (icon: string)
    ensures icon == UnknownIcon <==> mediaType !in {"movie", "tv", "person"}
  {
    match mediaType
    case "movie" => MovieIcon
    case "tv" => TvIcon
    case "person" => PersonIcon
    case _ => UnknownIcon
  }

  /** The icon tells the media type back: the three kinds of result get three different
      icons, and the catch-all "all" gets the question mark. */
  lemma MediaTypeIconInjective(m1: Filters.MediaType, m2: Filters.MediaType)
    requires m1 != Filters.All && m2 != Filters.All
    requires MediaTypeIcon(Filters.MediaTypeCode(m1)) == MediaTypeIcon(Filters.MediaTypeCode(m2))
    ensures m1 == m2
  {
    assert MovieIcon[0] != TvIcon[0] && TvIcon[0] != PersonIcon[0] && MovieIcon[0] != PersonIcon[0];
  }

  lemma MediaTypeIconOfAll()
    ensures MediaTypeIcon(Filters.MediaTypeCode(Filters.All)) == UnknownIcon
  {
  }

  // ---------------------------------------------------------------- gender

  /** The formatter's `getGenderText()`: like the person entity's, but it also knows 3. */
  function GenderText(gender: Value): (t: string)
    ensures t == "Non-binary" <==> gender == Num(3)
    ensures gender != Num(3) ==> t == Entities.GenderText(gender)
  {
    match gender
    case Num(1) => "Female"
    case Num(2) => "Male"
    case Num(3) => "Non-binary"
    case _ => "Not specified"
  }

  /** The two gender texts disagree on exactly one code. */
  lemma GenderTextsDiffer(gender: Value)
    ensures GenderText(gender) != Entities.GenderText(gender) <==> gender == Num(3)
  {
  }

  // ---------------------------------------------------------------- truncation

  const Ellipsis: string := "..."

  /** `truncateText()`: text that fits is returned as it is; longer text keeps its first
      `maxLength - 3` characters (none when that is negative, as `substring` clamps) and
      gets an ellipsis, so it ends up exactly `maxLength` long when `maxLength >= 3`. */
  function Truncate(text: string, maxLength: int): (r: string)
    ensures |text| <= maxLength ==> r == text
    ensures |text| > maxLength ==>
      |r| == (if maxLength < 3 then 3 else maxLength) && r[|r| - 3..] == Ellipsis && r[..|r| - 3] <= text
  {
    if |text| <= maxLength then text
    else
      var end := if maxLength - 3 < 0 then 0 else maxLength - 3;
      text[..end] + Ellipsis
  }

  /** Truncating twice is truncating once. */
  lemma TruncateIdempotent(text: string, maxLength: int)
    ensures Truncate(Truncate(text, maxLength), maxLength) == Truncate(text, maxLength)
  {
    if |text| > maxLength && maxLength < 3 {
      assert Truncate(text, maxLength) == Ellipsis;
    }
  }

  /** A truncated text never exceeds the limit once the limit leaves room for the ellipsis. */
  lemma TruncateFits(text: string, maxLength: int)
    requires maxLength >= 3
    ensures |Truncate(text, maxLength)| <= maxLength
    ensures Truncate(text, maxLength) == text || |text| > maxLength
  {
  }

  // ---------------------------------------------------------------- word wrapping

  /** A word of single-spaced text: non-empty and free of white space. */
  predicate Word(w: string) {
    w != "" && forall k :: 0 <= k < |w| ==> !IsWhite(w[k])
  }

  /** Words separated by single spaces, with no space at either end. */
  predicate SingleSpaced(text: string) {
    var words := Split(text, ' ');
    forall i :: 0 <= i < |words| ==> Word(words[i])
  }

  /** Every line longer than the width is a single word. */
  predicate LongLinesAreWords(lines: seq<string>, maxWidth: int) {
    forall j :: 0 <= j < |lines| && |lines[j]| > maxWidth ==> ' ' !in lines[j]
  }

  /** The line being built: empty, or words each followed by a space; without its last
      space it fits the width unless it is a single word. */
  predicate OpenLine(cur: string, maxWidth: int) {
    cur == "" || (cur[|cur| - 1] == ' ' && (|cur| - 1 <= maxWidth || ' ' !in cur[..|cur| - 1]))
  }

  /** The line being built starts and ends (before its last space) with a word character. */
  predicate WordBounded(cur: string) {
    cur == "" || (|cur| >= 2 && !IsWhite(cur[0]) && !IsWhite(cur[|cur| - 2]))
  }

  /** The finished lines followed by the open one, as `trim` would leave it. */
  function Pending(lines: seq<string>, cur: string): seq<string> {
    if cur == "" then lines else lines + [cur[..|cur| - 1]]
  }

  /** Trimming the open line: its trailing space goes; a long result is a single word; and
      when it is bounded by word characters exactly the last space goes. */
  lemma TrimOpenLine(cur: string, maxWidth: int)
    requires cur != "" && OpenLine(cur, maxWidth)
    ensures |Trim(cur)| > maxWidth ==> ' ' !in Trim(cur)
    ensures WordBounded(cur) ==> Trim(cur) == cur[..|cur| - 1]
  {
    var r := Trim(cur);
    var a :| 0 <= a <= |cur| - |r| && r == cur[a..a + |r|]
             && WhiteBetween(cur, 0, a) && WhiteBetween(cur, a + |r|, |cur|);
    assert IsWhite(' ');
    if r != "" {
      assert r[|r| - 1] == cur[a + |r| - 1];
      assert a + |r| <= |cur| - 1;
      assert r == cur[..|cur| - 1][a..a + |r|];
    }
    if WordBounded(cur) {
      assert !IsWhite(cur[0]);
      assert a == 0;
      assert !IsWhite(cur[|cur| - 2]);
      assert a + |r| >= |cur| - 1;
    }
  }

  /** Appending a word to the last line of a join adds a separator and the word. */
  lemma JoinExtendLast(lines: seq<string>, x: string, w: string, sep: string)
    ensures Join(lines + [x + sep + w], sep) == Join(lines + [x], sep) + sep + w
  {
    if lines == [] {
      assert [x + sep + w] == lines + [x + sep + w];
    } else {
      JoinSnoc(lines, x + sep + w, sep);
      JoinSnoc(lines, x, sep);
    }
  }

  /** Adding a word as a new last part of a join adds a separator and the word. */
  lemma JoinNewLast(parts: seq<string>, words: seq<string>, w: string, sep: string)
    requires Join(parts, sep) == Join(words, sep)
    requires parts == [] <==> words == []
    ensures Join(parts + [w], sep) == Join(words + [w], sep)
  {
    if parts == [] {
      assert parts + [w] == words + [w];
    } else {
      JoinSnoc(parts, w, sep);
      JoinSnoc(words, w, sep);
    }
  }

  /** What holds after the first `i` words: long lines are single words, the open line is
      well formed, and for single-spaced text the lines so far hold exactly those words. */
  predicate Wrapped(text: string, words: seq<string>, i: int, lines: seq<string>, cur: string, maxWidth: int) {
    && words == Split(text, ' ')
    && 0 <= i <= |words|
    && LongLinesAreWords(lines, maxWidth)
    && OpenLine(cur, maxWidth)
    && (i == 0 ==> lines == [] && cur == "")
    && (i > 0 ==> Pending(lines, cur) != [])
    && (SingleSpaced(text) ==> WordBounded(cur) && Join(Pending(lines, cur), " ") == Join(words[..i], " "))
  }

  /** The next word does not fit behind the open line: the open line is closed, trimmed,
      and the word opens the next one. */
  lemma WrapBreak(text: string, words: seq<string>, i: int, lines: seq<string>, cur: string, maxWidth: int)
    requires Wrapped(text, words, i, lines, cur, maxWidth) && i < |words|
    requires cur != "" && |cur + words[i]| > maxWidth
    ensures Wrapped(text, words, i + 1, lines + [Trim(cur)], words[i] + " ", maxWidth)
  {
    var word := words[i];
    var cur' := word + " ";
    TrimOpenLine(cur, maxWidth);
    assert ' ' !in word;
    assert cur'[..|cur'| - 1] == word;
    if SingleSpaced(text) {
      assert Word(word);
      assert cur'[0] == word[0] && cur'[|cur'| - 2] == word[|word| - 1];
      assert words[..i + 1] == words[..i] + [word];
      assert Pending(lines + [Trim(cur)], cur') == Pending(lines, cur) + [word];
      JoinNewLast(Pending(lines, cur), words[..i], word, " ");
    }
  }

  /** A word that does not fit on an empty line becomes a line of its own. */
  lemma WrapLongWord(text: string, words: seq<string>, i: int, lines: seq<string>, maxWidth: int)
    requires Wrapped(text, words, i, lines, "", maxWidth) && i < |words|
    requires |words[i]| > maxWidth
    ensures Wrapped(text, words, i + 1, lines + [words[i]], "", maxWidth)
  {
    var word := words[i];
    assert ' ' !in word;
    if SingleSpaced(text) {
      assert words[..i + 1] == words[..i] + [word];
      JoinNewLast(lines, words[..i], word, " ");
    }
  }

  /** A word that fits is appended to the open line, followed by a space. */
  lemma WrapAppend(text: string, words: seq<string>, i: int, lines: seq<string>, cur: string, maxWidth: int)
    requires Wrapped(text, words, i, lines, cur, maxWidth) && i < |words|
    requires |cur + words[i]| <= maxWidth
    ensures Wrapped(text, words, i + 1, lines, cur + words[i] + " ", maxWidth)
  {
    var cur' := cur + words[i] + " ";
    assert cur'[|cur'| - 1] == ' ' && |cur'| - 1 == |cur + words[i]|;
    assert OpenLine(cur', maxWidth);
    assert Pending(lines, cur') == lines + [cur'[..|cur'| - 1]];
    if SingleSpaced(text) {
      assert Word(words[i]);
      assert words[..i + 1] == words[..i] + [words[i]];
      if cur == "" {
        assert Pending(lines, cur) == lines;
        assert words[..i] == [] <==> i == 0;
        assert cur' == words[i] + " ";
        WrapOpen(lines, words[..i], words[i]);
      } else {
        assert i > 0 && words[..i] != [];
        WrapExtend(lines, cur, words[..i], words[i]);
      }
    }
  }

  /** The first word of a line opens it. */
  lemma WrapOpen(lines: seq<string>, done: seq<string>, word: string)
    requires Word(word)
    requires Join(lines, " ") == Join(done, " ") && (lines == [] <==> done == [])
    ensures WordBounded(word + " ")
    ensures Join(Pending(lines, word + " "), " ") == Join(done + [word], " ")
  {
    var cur' := word + " ";
    assert cur'[..|cur'| - 1] == word;
    assert cur'[0] == word[0] && cur'[|cur'| - 2] == word[|word| - 1];
    JoinNewLast(lines, done, word, " ");
  }

  /** A further word extends the open line after one space. */
  lemma WrapExtend(lines: seq<string>, cur: string, done: seq<string>, word: string)
    requires Word(word) && cur != "" && cur[|cur| - 1] == ' ' && WordBounded(cur)
    requires Join(Pending(lines, cur), " ") == Join(done, " ") && done != []
    ensures WordBounded(cur + word + " ")
    ensures Join(Pending(lines, cur + word + " "), " ") == Join(done + [word], " ")
  {
    var cur' := cur + word + " ";
    var x := cur[..|cur| - 1];
    assert cur == x + " ";
    assert cur'[..|cur'| - 1] == x + " " + word;
    assert cur'[0] == cur[0];
    assert cur'[|cur| + |word| - 1] == word[|word| - 1];
    assert Pending(lines, cur) == lines + [x];
    assert Pending(lines, cur') == lines + [x + " " + word];
    JoinExtendLast(lines, x, word, " ");
    JoinSnoc(done, word, " ");
  }

  /** Closing the last open line leaves every word of single-spaced text in place. */
  lemma WrapFinish(text: string, words: seq<string>, lines: seq<string>, cur: string, maxWidth: int)
    requires Wrapped(text, words, |words|, lines, cur, maxWidth)
    ensures var done := if cur != "" then lines + [Trim(cur)] else lines;
      LongLinesAreWords(done, maxWidth) && (SingleSpaced(text) ==> Join(done, " ") == text)
  {
    if cur != "" {
      TrimOpenLine(cur, maxWidth);
    }
    if SingleSpaced(text) {
      assert words[..|words|] == words;
      SplitJoin(text, ' ');
    }
  }

  /** `wrapText()`: greedy wrapping of the space-separated words of `text` into lines of at
      most `maxWidth` characters, joined with newlines. A word longer than the width gets a
      line of its own; no word is split, dropped or moved. */
  method WrapText(text: string, maxWidth: int) returns (lines: seq<string>, r: string)
    ensures r == Join(lines, "\n")
    ensures text == "" ==> lines == [] && r == ""
    ensures LongLinesAreWords(lines, maxWidth)
    ensures SingleSpaced(text) ==> Join(lines, " ") == text
  {
    if text == "" {
      return [], "";
    }
    var words := Split(text, ' ');
    lines := [];
    var cur := "";
    var i := 0;
    while i < |words|
      invariant Wrapped(text, words, i, lines, cur, maxWidth)
      decreases |words| - i
    {
      var word := words[i];
      if |cur + word| > maxWidth {
        if cur != "" {
          WrapBreak(text, words, i, lines, cur, maxWidth);
          lines := lines + [Trim(cur)];
          cur := word + " ";
        } else {
          WrapLongWord(text, words, i, lines, maxWidth);
          lines := lines + [word];
        }
      } else {
        WrapAppend(text, words, i, lines, cur, maxWidth);
        cur := cur + word + " ";
      }
      i := i + 1;
    }
    WrapFinish(text, words, lines, cur, maxWidth);
    if cur != "" {
      lines := lines + [Trim(cur)];
    }
    r := Join(lines, "\n");
  }
}
