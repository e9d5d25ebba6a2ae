/** The greedy word wrapper of the documentation generator. */
module WordWrap {

  predicate IsSpace(c: char) { c == ' ' || c == '\n' || c == '\r' || c == '\t' }

  predicate IsWord(w: string) {
    w != "" && forall i | 0 <= i < |w| :: !IsSpace(w[i])
  }

  predicate AllWords(ws: seq<string>) {
    forall i | 0 <= i < |ws| :: IsWord(ws[i])
  }

  // ---- words of a text -----------------------------------------------------------------------------

  /** The words that have ended, and the one that has not. */
  function Scan(s: string): (seq<string>, string) {
    if s == "" then ([], "")
    else
      var (ws, w) := Scan(s[..|s| - 1]);
      var c := s[|s| - 1];
      if IsSpace(c) then (Ended(ws, w), "") else (ws, w + [c])
  }

  function Ended(ws: seq<string>, w: string): seq<string> {
    if w == "" then ws else ws + [w]
  }

  function Words(s: string): seq<string> {
    Ended(Scan(s).0, Scan(s).1)
  }

  lemma {:induction false} ScanIsWords(s: string)
    ensures AllWords(Scan(s).0) && forall i | 0 <= i < |Scan(s).1| :: !IsSpace(Scan(s).1[i])
    ensures AllWords(Words(s))
  {
    if s != "" {
      ScanIsWords(s[..|s| - 1]);
    }
  }

  lemma {:induction false} ScanWord(s: string, w: string)
    requires forall i | 0 <= i < |w| :: !IsSpace(w[i])
    ensures Scan(s + w) == (Scan(s).0, Scan(s).1 + w)
    decreases |w|
  {
    if w == "" {
      assert s + w == s && Scan(s).1 + w == Scan(s).1;
    } else {
      var init := w[..|w| - 1];
      ScanWord(s, init);
      assert (s + w)[..|s + w| - 1] == s + init;
      assert Scan(s).1 + w == (Scan(s).1 + init) + [w[|w| - 1]];
    }
  }

  /** A separator and a word add exactly that word. */
  lemma WordsMore(s: string, sep: char, w: string)
    requires IsSpace(sep) && IsWord(w)
    ensures Words(s + [sep] + w) == Words(s) + [w]
  {
    assert (s + [sep])[..|s|] == s;
    ScanWord(s + [sep], w);
    assert "" + w == w;
  }

  /** A blank, a line break or a tab behind a text adds no word and ends the last one. */
  lemma SeparatorAddsNothing(s: string, sep: char)
    requires sep in {' ', '\n', '\r', '\t'}
    ensures Words(s + [sep]) == Words(s)
  {
    assert (s + [sep])[..|s|] == s;
  }

  /** The characters of a text that are not separators. */
  function Letters(s: string): string {
    if s == "" then ""
    else
      var c := s[|s| - 1];
      Letters(s[..|s| - 1]) + if c in {' ', '\n', '\r', '\t'} then "" else [c]
  }

  function Concat(ws: seq<string>): string {
    if ws == [] then "" else Concat(ws[..|ws| - 1]) + ws[|ws| - 1]
  }

  lemma ConcatSnoc(ws: seq<string>, w: string)
    ensures Concat(ws + [w]) == Concat(ws) + w
  {
    assert (ws + [w])[..|ws|] == ws;
  }

  /** Together the words are all the other characters, in order; none is lost or added. */
  lemma {:induction false} WordsAreLetters(s: string)
    ensures Concat(Words(s)) == Letters(s)
  {
    ScannedLetters(s);
    var (ws, w) := Scan(s);
    ConcatSnoc(ws, w);
  }

  lemma {:induction false} ScannedLetters(s: string)
    ensures Concat(Scan(s).0) + Scan(s).1 == Letters(s)
  {
    if s != "" {
      var init, c := s[..|s| - 1], s[|s| - 1];
      ScannedLetters(init);
      var (ws, w) := Scan(init);
      ConcatSnoc(ws, w);
      if IsSpace(c) {
        assert Concat(Ended(ws, w)) + "" == Concat(ws) + w;
      } else {
        assert Concat(ws) + (w + [c]) == (Concat(ws) + w) + [c];
      }
    }
  }

  // ---- lines -----------------------------------------------------------------------------------------

  function Join(line: seq<string>): string {
    if line == [] then ""
    else if |line| == 1 then line[0]
    else Join(line[..|line| - 1]) + [' '] + line[|line| - 1]
  }

  function JoinLines(lines: seq<seq<string>>): string {
    if lines == [] then ""
    else if |lines| == 1 then Join(lines[0])
    else JoinLines(lines[..|lines| - 1]) + ['\n'] + Join(lines[|lines| - 1])
  }

  function Flatten(lines: seq<seq<string>>): seq<string> {
    if lines == [] then [] else Flatten(lines[..|lines| - 1]) + lines[|lines| - 1]
  }

  function Last(lines: seq<seq<string>>): seq<string>
    requires lines != []
  {
    lines[|lines| - 1]
  }

  /** A word goes on the last line if it fits there, and on a new line otherwise. */
  function Place(lines: seq<seq<string>>, w: string, width: nat): seq<seq<string>> {
    if lines != [] && |Join(Last(lines))| + 1 + |w| <= width then lines[..|lines| - 1] + [Last(lines) + [w]]
    else lines + [[w]]
  }

  function Wrap(ws: seq<string>, width: nat): seq<seq<string>> {
    if ws == [] then [] else Place(Wrap(ws[..|ws| - 1], width), ws[|ws| - 1], width)
  }

  /** Within the width, unless it is one long word. */
  predicate LineOk(line: seq<string>, width: nat) {
    line != [] && (|Join(line)| <= width || |line| == 1)
  }

  predicate Lawful(lines: seq<seq<string>>, ws: seq<string>, width: nat) {
    Flatten(lines) == ws && forall i | 0 <= i < |lines| :: LineOk(lines[i], width)
  }

  lemma JoinMore(line: seq<string>, w: string)
    requires line != []
    ensures Join(line + [w]) == Join(line) + [' '] + w
  {
    assert (line + [w])[..|line|] == line;
  }

  lemma PlaceLawful(lines: seq<seq<string>>, ws: seq<string>, w: string, width: nat)
    requires Lawful(lines, ws, width)
    ensures Lawful(Place(lines, w, width), ws + [w], width)
  {
    var more := Place(lines, w, width);
    assert |more| == |lines| ==> LineOk(Last(lines), width);
    if |more| == |lines| {
      var init := lines[..|lines| - 1];
      hide Join;
      assert more[..|more| - 1] == init;
      assert Flatten(init) + (Last(lines) + [w]) == (Flatten(init) + Last(lines)) + [w];
      JoinMore(Last(lines), w);
    } else {
      hide Join;
      assert more[..|more| - 1] == lines;
      NewLine(w, width);
    }
  }

  lemma NewLine(w: string, width: nat)
    ensures LineOk([w], width)
  {
  }

  /** All words, in order, and no line too wide. */
  lemma {:induction false} WrapLawful(ws: seq<string>, width: nat)
    ensures Lawful(Wrap(ws, width), ws, width)
    ensures ws != [] ==> Wrap(ws, width) != []
  {
    if ws != [] {
      var init, w := ws[..|ws| - 1], ws[|ws| - 1];
      WrapLawful(init, width);
      PlaceLawful(Wrap(init, width), init, w, width);
      assert init + [w] == ws;
    }
  }

  // ---- fewest lines ----------------------------------------------------------------------------------

  /** Fewer lines, or as many with a last line no longer. */
  predicate AtMost(a: seq<seq<string>>, b: seq<seq<string>>) {
    |a| < |b| || (|a| == |b| && (a != [] ==> |Join(Last(a))| <= |Join(Last(b))|))
  }

  /** `lines` without its last word. */
  function Shorter(lines: seq<seq<string>>): seq<seq<string>>
    requires lines != [] && Last(lines) != []
  {
    var init, l := lines[..|lines| - 1], Last(lines);
    if |l| == 1 then init else init + [l[..|l| - 1]]
  }

  lemma ShorterLawful(lines: seq<seq<string>>, ws: seq<string>, width: nat)
    requires Lawful(lines, ws, width) && ws != []
    ensures lines != [] && Last(lines) != [] && Last(lines)[|Last(lines)| - 1] == ws[|ws| - 1]
    ensures Lawful(Shorter(lines), ws[..|ws| - 1], width)
  {
    assert lines != [];
    var init, l := lines[..|lines| - 1], Last(lines);
    assert LineOk(l, width);
    var l' := l[..|l| - 1];
    assert l == l' + [l[|l| - 1]];
    assert Flatten(init) + l == (Flatten(init) + l') + [l[|l| - 1]];
    if |l| > 1 {
      JoinMore(l', l[|l| - 1]);
      assert (init + [l'])[..|init|] == init;
    } else {
      assert Flatten(init) + l' == Flatten(init);
    }
  }

  lemma PlaceStaysAhead(a: seq<seq<string>>, b: seq<seq<string>>, w: string, width: nat)
    requires b != [] && LineOk(Last(b), width) && Last(b)[|Last(b)| - 1] == w
    requires AtMost(a, Shorter(b)) && (a != [] ==> Last(a) != [])
    ensures AtMost(Place(a, w, width), b)
  {
    var l := Last(b);
    if |l| == 1 {
      assert l == [w];
    } else {
      assert l == l[..|l| - 1] + [w];
      JoinMore(l[..|l| - 1], w);
      if a != [] {
        JoinMore(Last(a), w);
      }
    }
  }

  lemma {:induction false} GreedyStaysAhead(ws: seq<string>, lines: seq<seq<string>>, width: nat)
    requires Lawful(lines, ws, width)
    ensures AtMost(Wrap(ws, width), lines)
    decreases |ws|
  {
    if ws != [] {
      ShorterLawful(lines, ws, width);
      GreedyStaysAhead(ws[..|ws| - 1], Shorter(lines), width);
      WrapLawful(ws[..|ws| - 1], width);
      hide Lawful, Wrap, Join, Flatten;
      assert Wrap(ws, width) == Place(Wrap(ws[..|ws| - 1], width), ws[|ws| - 1], width) by { WrapSnoc(ws, width); }
      LastLineOk(ws, lines, width);
      if Wrap(ws[..|ws| - 1], width) != [] {
        LastLineOk(ws[..|ws| - 1], Wrap(ws[..|ws| - 1], width), width);
      }
      PlaceStaysAhead(Wrap(ws[..|ws| - 1], width), lines, ws[|ws| - 1], width);
    }
  }

  lemma WrapSnoc(ws: seq<string>, width: nat)
    requires ws != []
    ensures Wrap(ws, width) == Place(Wrap(ws[..|ws| - 1], width), ws[|ws| - 1], width)
  {
  }

  lemma LastLineOk(ws: seq<string>, lines: seq<seq<string>>, width: nat)
    requires Lawful(lines, ws, width) && lines != []
    ensures LineOk(Last(lines), width)
  {
  }

  /** No other way to break the same words into lawful lines has fewer lines. */
  lemma GreedyIsMinimal(ws: seq<string>, lines: seq<seq<string>>, width: nat)
    requires Lawful(lines, ws, width)
    ensures |Wrap(ws, width)| <= |lines|
  {
    GreedyStaysAhead(ws, lines, width);
  }

  // ---- the text ----------------------------------------------------------------------------------------

  function Text(ws: seq<string>, width: nat): string {
    JoinLines(Wrap(ws, width))
  }

  function Column(ws: seq<string>, width: nat): nat {
    if ws == [] then 0 else WrapLawful(ws, width); |Join(Last(Wrap(ws, width)))|
  }

  /** How one more word changes the text and the column. */
  lemma TextMore(ws: seq<string>, w: string, width: nat)
    requires AllWords(ws) && IsWord(w)
    ensures Text(ws + [w], width) ==
              if ws == [] then w
              else Text(ws, width) + [if Column(ws, width) + 1 + |w| <= width then ' ' else '\n'] + w
    ensures Column(ws + [w], width) ==
              if ws != [] && Column(ws, width) + 1 + |w| <= width then Column(ws, width) + 1 + |w| else |w|
  {
    assert (ws + [w])[..|ws|] == ws;
    WrapLawful(ws, width);
    var lines, more := Wrap(ws, width), Wrap(ws + [w], width);
    assert more == Place(lines, w, width);
    if ws == [] {
      assert more == [[w]];
    } else if |more| == |lines| {
      var init := lines[..|lines| - 1];
      assert more[..|init|] == init;
      JoinMore(Last(lines), w);
      TextAppend(init, Last(lines), w);
    } else {
      assert more[..|lines|] == lines;
    }
  }

  lemma TextAppend(init: seq<seq<string>>, l: seq<string>, w: string)
    requires l != []
    ensures JoinLines(init + [l + [w]]) == JoinLines(init + [l]) + [' '] + w
  {
    JoinMore(l, w);
    assert (init + [l + [w]])[..|init|] == init && (init + [l])[..|init|] == init;
    if init != [] {
      assert JoinLines(init) + ['\n'] + (Join(l) + [' '] + w) == (JoinLines(init) + ['\n'] + Join(l)) + [' '] + w;
    }
  }

  lemma {:induction false} WordsOfText(ws: seq<string>, width: nat)
    requires AllWords(ws)
    ensures Words(Text(ws, width)) == ws
  {
    if ws != [] {
      var init, w := ws[..|ws| - 1], ws[|ws| - 1];
      assert init + [w] == ws;
      hide Text, Column;
      WordsOfText(init, width);
      TextMore(init, w, width);
      if init == [] {
        ScanWord("", w);
        assert "" + w == w;
      } else {
        WordsMore(Text(init, width), if Column(init, width) + 1 + |w| <= width then ' ' else '\n', w);
      }
    }
  }

  /** Wrapping a wrapped text changes nothing. */
  lemma WrapIsIdempotent(s: string, width: nat)
    ensures Text(Words(Text(Words(s), width)), width) == Text(Words(s), width)
  {
    ScanIsWords(s);
    WordsOfText(Words(s), width);
  }

  /** The flush_word closure. */
  method FlushWord(out: string, word: string, col: nat, width: nat, ghost ws: seq<string>)
    returns (out': string, col': nat)
    requires AllWords(ws) && (word != "" ==> IsWord(word))
    requires out == Text(ws, width) && col == Column(ws, width)
    ensures out' == Text(Ended(ws, word), width) && col' == Column(Ended(ws, word), width)
  {
    out', col' := out, col;
    if word == "" { return; }
    TextMore(ws, word, width);
    ColumnPositive(ws, width);
    if col == 0 {
      out' := word;
      col' := |word|;
    } else if col + 1 + |word| <= width {
      out' := out + [' '] + word;
      col' := col + 1 + |word|;
    } else {
      out' := out + ['\n'] + word;
      col' := |word|;
    }
  }

  lemma {:induction false} ColumnPositive(ws: seq<string>, width: nat)
    requires AllWords(ws)
    ensures Column(ws, width) == 0 <==> ws == []
  {
    if ws != [] {
      var init, w := ws[..|ws| - 1], ws[|ws| - 1];
      assert init + [w] == ws;
      TextMore(init, w, width);
    }
  }

  /** wrap_words */
  method WrapWords(s: string, width: nat) returns (out: string)
    ensures out == Text(Words(s), width)
  {
    var word: string := "";
    var col: nat := 0;
    out := "";
    for k := 0 to |s|
      invariant word == Scan(s[..k]).1
      invariant out == Text(Scan(s[..k]).0, width) && col == Column(Scan(s[..k]).0, width)
    {
      ScanIsWords(s[..k]);
      assert s[..k + 1][..k] == s[..k];
      if IsSpace(s[k]) {
        out, col := FlushWord(out, word, col, width, Scan(s[..k]).0);
        word := "";
      } else {
        word := word + [s[k]];
      }
    }
    assert s[..|s|] == s;
    ScanIsWords(s);
    out, col := FlushWord(out, word, col, width, Scan(s).0);
  }
}
