/**
 * The typewriter message board: a sentence is word-wrapped into lines of
 * about 28 characters (a `|` in a word forces a break before it), and the
 * lines are then revealed one character per frame swap until the board
 * reports completion, once.
 */
module Messages {
  import opened Scene

  /** `maxChars`: the wrap width of a line. */
  const MaxChars: nat := 28

  /** The argument of `init`: one string, or a list of sentences. */
  datatype Sentences = Text(text: string) | List(items: seq<string>)

  /** `init` wraps a single string into a one-element list. */
  function SentenceList(s: Sentences): (r: seq<string>)
    ensures s.Text? ==> r == [s.text]
    ensures s.List? ==> r == s.items
  {
    match s
    case Text(t) => [t]
    case List(items) => items
  }

  // ----- String helpers: split(' '), replace('|', ''), join -----

  /** `s.split(' ')`: the pieces between single spaces, empty pieces kept. */
  function Split(s: string): (r: seq<string>)
    ensures |r| >= 1
  {
    if s == [] then [""]
    else
      var rest := Split(s[1..]);
      if s[0] == ' ' then [""] + rest
      else [[s[0]] + rest[0]] + rest[1..]
  }

  /** No piece contains a space. */
  lemma {:induction false} SplitHasNoSpaces(s: string)
    ensures forall k :: 0 <= k < |Split(s)| ==> ' ' !in Split(s)[k]
  {
    if s != [] {
      SplitHasNoSpaces(s[1..]);
      var rest := Split(s[1..]);
      if s[0] != ' ' {
        assert ' ' !in [s[0]] + rest[0];
      }
    }
  }

  /** The pieces joined back with one space between neighbours. */
  function Join(ws: seq<string>): string
  {
    if |ws| == 0 then ""
    else if |ws| == 1 then ws[0]
    else ws[0] + " " + Join(ws[1..])
  }

  /** Splitting at spaces loses nothing: joining the pieces gives the sentence back. */
  lemma {:induction false} JoinSplit(s: string)
    ensures Join(Split(s)) == s
  {
    if s != [] {
      var rest := Split(s[1..]);
      JoinSplit(s[1..]);
      if s[0] == ' ' {
        assert Split(s) == [""] + rest;
        assert ([""] + rest)[1..] == rest;
        assert Join(Split(s)) == "" + " " + Join(rest);
      } else {
        var w := [s[0]] + rest[0];
        assert Split(s) == [w] + rest[1..];
        if |rest| == 1 {
          assert Join(Split(s)) == w == [s[0]] + Join(rest);
        } else {
          assert ([w] + rest[1..])[1..] == rest[1..];
          assert Join(Split(s)) == w + " " + Join(rest[1..]);
          assert Join(rest) == rest[0] + " " + Join(rest[1..]);
        }
      }
    }
  }

  /** The converse: pieces without spaces are recovered from their join. */
  lemma {:induction false} SplitJoin(ws: seq<string>)
    requires |ws| >= 1
    requires forall k :: 0 <= k < |ws| ==> ' ' !in ws[k]
    ensures Split(Join(ws)) == ws
  {
    if |ws| == 1 {
      SplitWord(ws[0]);
    } else {
      var tail := Join(ws[1..]);
      SplitJoin(ws[1..]);
      SplitWordThen(ws[0], tail);
      assert Split(Join(ws)) == [ws[0]] + ws[1..];
      assert [ws[0]] + ws[1..] == ws;
    }
  }

  /** A word without spaces splits into itself. */
  lemma {:induction false} SplitWord(w: string)
    requires ' ' !in w
    ensures Split(w) == [w]
  {
    if w != [] {
      assert ' ' !in w[1..] by {
        forall k | 0 <= k < |w[1..]| ensures w[1..][k] != ' ' {
          assert w[1..][k] == w[k + 1];
        }
      }
      SplitWord(w[1..]);
      assert [w[0]] + w[1..] == w;
    }
  }

  /** A word without spaces followed by a space puts that word in front of the rest's pieces. */
  lemma {:induction false} SplitWordThen(w: string, tail: string)
    requires ' ' !in w
    ensures Split(w + " " + tail) == [w] + Split(tail)
  {
    if w == [] {
      assert w + " " + tail == [' '] + tail;
      assert ([' '] + tail)[1..] == tail;
    } else {
      assert ' ' !in w[1..] by {
        forall k | 0 <= k < |w[1..]| ensures w[1..][k] != ' ' {
          assert w[1..][k] == w[k + 1];
        }
      }
      SplitWordThen(w[1..], tail);
      var s := w + " " + tail;
      assert s[0] == w[0];
      assert s[1..] == w[1..] + " " + tail;
      var rest := Split(s[1..]);
      assert rest == [w[1..]] + Split(tail);
      assert Split(s) == [[w[0]] + w[1..]] + rest[1..];
      assert [w[0]] + w[1..] == w;
      assert rest[1..] == Split(tail);
    }
  }

  /** `word.replace('|', '')`: only the FIRST bar is removed. */
  function Strip(w: string): (r: string)
    ensures '|' !in w ==> r == w
    ensures '|' in w ==> |r| == |w| - 1
  {
    if w == [] then []
    else if w[0] == '|' then w[1..]
    else [w[0]] + Strip(w[1..])
  }

  /** Removing the first bar keeps the characters before it and after it, in order. */
  lemma {:induction false} StripRemovesFirstBar(w: string, j: nat)
    requires j < |w| && w[j] == '|'
    requires forall k :: 0 <= k < j ==> w[k] != '|'
    ensures Strip(w) == w[..j] + w[j + 1..]
  {
    if j > 0 {
      StripRemovesFirstBar(w[1..], j - 1);
      assert w[1..][..j - 1] == w[1..j];
      assert w[1..][j..] == w[j + 1..];
      assert [w[0]] + w[1..j] == w[..j];
    }
  }

  /** What a word adds to a line: the word without its first bar, then a space. */
  function Spaced(w: string): (r: string)
    ensures |r| >= 1 && r[|r| - 1] == ' '
    ensures |r| == |Strip(w)| + 1
  {
    Strip(w) + " "
  }

  // ----- textIntoLines -----

  /** The lines pushed so far and the line still being built. */
  datatype Wrap = Wrap(lines: seq<string>, buffer: string)

  /** One iteration of the word loop of `textIntoLines`. */
  function Place(acc: Wrap, w: string): (r: Wrap)
  {
    if |acc.buffer| + |Strip(w)| + 1 <= MaxChars then
      if '|' in w then Wrap(acc.lines + [acc.buffer], Spaced(w))
      else Wrap(acc.lines, acc.buffer + Spaced(w))
    else Wrap(acc.lines + [acc.buffer], Spaced(w))
  }

  /** The word loop over a prefix of the words. */
  function Fold(ws: seq<string>): (r: Wrap)
  {
    if ws == [] then Wrap([], "")
    else Place(Fold(ws[..|ws| - 1]), ws[|ws| - 1])
  }

  /** `textIntoLines`: the wrapped lines of one sentence. */
  function Lines(sentence: string): (r: seq<string>)
    ensures |r| >= 1
  {
    var f := Fold(Split(sentence));
    f.lines + [f.buffer]
  }

  /** All lines written one after another. */
  function Flatten(ls: seq<string>): string
  {
    if ls == [] then "" else Flatten(ls[..|ls| - 1]) + ls[|ls| - 1]
  }

  /** The words of a sentence as the board shows them. */
  function SpacedAll(ws: seq<string>): string
  {
    if ws == [] then "" else SpacedAll(ws[..|ws| - 1]) + Spaced(ws[|ws| - 1])
  }

  /** The sum of the line lengths, as `init` accumulates it into `totalChars`. */
  function SumLengths(ls: seq<string>): nat
  {
    if ls == [] then 0 else SumLengths(ls[..|ls| - 1]) + |ls[|ls| - 1]|
  }

  lemma {:induction false} FlattenLength(ls: seq<string>)
    ensures |Flatten(ls)| == SumLengths(ls)
  {
    if ls != [] {
      FlattenLength(ls[..|ls| - 1]);
    }
  }

  lemma {:induction false} FlattenAppend(ls: seq<string>, l: string)
    ensures Flatten(ls + [l]) == Flatten(ls) + l
  {
    assert (ls + [l])[..|ls|] == ls;
  }

  /** The word loop loses no character: pushed lines then buffer spell the spaced words. */
  lemma {:induction false} FoldKeepsText(ws: seq<string>)
    ensures Flatten(Fold(ws).lines) + Fold(ws).buffer == SpacedAll(ws)
  {
    if ws != [] {
      var front, w := ws[..|ws| - 1], ws[|ws| - 1];
      FoldKeepsText(front);
      var acc := Fold(front);
      FlattenAppend(acc.lines, acc.buffer);
      assert Fold(ws) == Place(acc, w);
      assert (Flatten(acc.lines) + acc.buffer) + Spaced(w)
          == Flatten(acc.lines) + (acc.buffer + Spaced(w));
    }
  }

  /**
   * Concatenating the lines gives every word of the sentence in order, each
   * with its first bar removed and followed by one space.
   */
  lemma LinesKeepText(sentence: string)
    ensures Flatten(Lines(sentence)) == SpacedAll(Split(sentence))
  {
    var f := Fold(Split(sentence));
    FoldKeepsText(Split(sentence));
    FlattenAppend(f.lines, f.buffer);
  }

  /**
   * `totalChars` counts exactly the shown characters: each word without its
   * first bar, plus one space per word.
   */
  lemma TotalCharsCountsWords(sentence: string)
    ensures SumLengths(Lines(sentence)) == |SpacedAll(Split(sentence))|
  {
    LinesKeepText(sentence);
    FlattenLength(Lines(sentence));
  }

  /** A line too long for the width holds a single word. */
  ghost predicate FitsOrSingle(line: string, ws: seq<string>)
  {
    |line| <= MaxChars || exists j :: 0 <= j < |ws| && line == Spaced(ws[j])
  }

  lemma {:induction false} FoldFits(ws: seq<string>)
    ensures FitsOrSingle(Fold(ws).buffer, ws)
    ensures forall k :: 0 <= k < |Fold(ws).lines| ==> FitsOrSingle(Fold(ws).lines[k], ws)
  {
    if ws != [] {
      var front, w := ws[..|ws| - 1], ws[|ws| - 1];
      FoldFits(front);
      var acc := Fold(front);
      forall l | FitsOrSingle(l, front) ensures FitsOrSingle(l, ws) {
        if |l| > MaxChars {
          var j :| 0 <= j < |front| && l == Spaced(front[j]);
          assert ws[j] == front[j];
        }
      }
      assert Spaced(ws[|ws| - 1]) == Spaced(w);
    }
  }

  /**
   * Appending a word never makes a line longer than 28 characters: every
   * line longer than that is a single word that did not fit anywhere.
   */
  lemma LinesFit(sentence: string)
    ensures forall k :: 0 <= k < |Lines(sentence)| ==> FitsOrSingle(Lines(sentence)[k], Split(sentence))
  {
    FoldFits(Split(sentence));
  }

  /**
   * A word containing a bar always starts a new line, whether it fits
   * (the forced break) or not (the ordinary wrap); a word without a bar
   * that fits is appended to the current line.
   */
  lemma BarStartsLine(ws: seq<string>, w: string)
    ensures '|' in w ==>
      Fold(ws + [w]).lines == Fold(ws).lines + [Fold(ws).buffer] &&
      Fold(ws + [w]).buffer == Spaced(w)
    ensures '|' !in w && |Fold(ws).buffer| + |w| + 1 <= MaxChars ==>
      Fold(ws + [w]).lines == Fold(ws).lines &&
      Fold(ws + [w]).buffer == Fold(ws).buffer + w + " "
  {
    assert (ws + [w])[..|ws|] == ws;
  }

  lemma {:induction false} FoldNonEmpty(ws: seq<string>)
    ensures ws != [] ==> Fold(ws).buffer != ""
    ensures forall k :: 1 <= k < |Fold(ws).lines| ==> Fold(ws).lines[k] != ""
  {
    if ws != [] {
      FoldNonEmpty(ws[..|ws| - 1]);
    }
  }

  /** Only the first line can be empty. */
  lemma LaterLinesNonEmpty(sentence: string)
    ensures forall k :: 1 <= k < |Lines(sentence)| ==> Lines(sentence)[k] != ""
  {
    FoldNonEmpty(Split(sentence));
  }

  /** A first word that carries a bar or is too long pushes an empty first line. */
  predicate StallsFirstLine(w: string)
  {
    '|' in w || |Strip(w)| + 1 > MaxChars
  }

  /** The first line of the word loop's result, pushed or still being built. */
  function FirstLine(f: Wrap): string
  {
    if |f.lines| >= 1 then f.lines[0] else f.buffer
  }

  lemma {:induction false} FoldFirstLine(ws: seq<string>)
    requires ws != []
    ensures FirstLine(Fold(ws)) == "" <==> StallsFirstLine(ws[0])
  {
    var front := ws[..|ws| - 1];
    if front == [] {
      assert ws == [ws[0]];
    } else {
      FoldFirstLine(front);
      FoldNonEmpty(front);
      assert front[0] == ws[0];
    }
  }

  /**
   * The first line is empty exactly when the first word carries a bar or
   * is too long to fit: the board then stalls on it (see `Showing`).
   */
  lemma FirstLineEmptyIff(sentence: string)
    ensures Lines(sentence)[0] == "" <==> StallsFirstLine(Split(sentence)[0])
  {
    FoldFirstLine(Split(sentence));
  }

  // ----- The board -----

  /** The JavaScript array store `a[k] = v` for an index at most one past the end. */
  function Put(a: seq<string>, k: nat, v: string): (r: seq<string>)
    requires k <= |a|
    ensures |r| == if k < |a| then |a| else |a| + 1
    ensures r[k] == v && forall j :: 0 <= j < |a| && j != k ==> r[j] == a[j]
  {
    if k < |a| then a[k := v] else a + [v]
  }

  /**
   * The effect of one frame swap on (currentLine, count, bufferedLines)
   * while a line remains: the first `count` characters of the current line
   * are shown; a line shown in full moves the cursor to the next one.
   */
  function Reveal(lines: seq<string>, line: nat, count: nat, shown: seq<string>): (r: (nat, nat, seq<string>))
    requires line < |lines| && line <= |shown|
  {
    var len := |lines[line]|;
    var n := if count < len then count else len;
    if n == 0 then (line, count + 1, shown)
    else if n == len then (line + 1, 1, Put(shown, line, lines[line]))
    else (line, count + 1, Put(shown, line, lines[line][..n]))
  }

  lemma {:induction false} SumLengthsPrefix(ls: seq<string>, n: nat)
    requires n <= |ls|
    ensures SumLengths(ls[..n]) <= SumLengths(ls)
  {
    if n < |ls| {
      var front := ls[..|ls| - 1];
      assert front[..n] == ls[..n];
      SumLengthsPrefix(front, n);
    } else {
      assert ls[..n] == ls;
    }
  }

  lemma SumLengthsPut(ls: seq<string>, v: string)
    ensures SumLengths(ls + [v]) == SumLengths(ls) + |v|
  {
    assert (ls + [v])[..|ls|] == ls;
  }

  lemma SumLengthsLast(ls: seq<string>, v: string)
    requires ls != []
    ensures SumLengths(ls[|ls| - 1 := v]) == SumLengths(ls) - |ls[|ls| - 1]| + |v|
  {
    assert ls[|ls| - 1 := v][..|ls| - 1] == ls[..|ls| - 1];
  }

  /**
   * Which lines the board shows: those before `line` in full, the current
   * one partly (never empty, never whole), none beyond; a board whose first
   * line is empty shows nothing at all.
   */
  ghost predicate Layout(lines: seq<string>, line: nat, shown: seq<string>)
  {
    && |lines| >= 1
    && (forall k :: 1 <= k < |lines| ==> lines[k] != "")
    && line <= |lines|
    && line <= |shown| <= line + 1
    && |shown| <= |lines|
    && (forall k :: 0 <= k < line ==> shown[k] == lines[k])
    && (line < |shown| ==> 0 < |shown[line]| < |lines[line]| && shown[line] == lines[line][..|shown[line]|])
    && (lines[0] == "" ==> line == 0 && shown == [])
  }

  /** The characters of the current line shown so far. */
  function ShownOfLine(line: nat, shown: seq<string>): nat
  {
    if line < |shown| then |shown[line]| else 0
  }

  /**
   * The counters of the board: after a first swap that shows nothing, each
   * swap shows one more character, so `charsDisplayed` is one more than the
   * characters shown and `count` one more than those of the current line.
   */
  ghost predicate Counting(lines: seq<string>, total: nat, line: nat, count: nat,
                           shown: seq<string>, chars: nat, complete: bool)
    requires |lines| >= 1
  {
    && total == SumLengths(lines)
    && chars <= total + 1
    && (complete ==> chars > total)
    && (lines[0] != "" ==>
          (chars == 0 ==> count == 0 && line == 0 && shown == []) &&
          (chars > 0 ==> SumLengths(shown) + 1 == chars && count == ShownOfLine(line, shown) + 1))
  }

  /**
   * The shape of the board between frames, over the values of `lines`,
   * `totalChars`, `currentLine`, `count`, `bufferedLines`, `charsDisplayed`
   * and `isComplete`.
   */
  ghost predicate Showing(lines: seq<string>, total: nat, line: nat, count: nat,
                          shown: seq<string>, chars: nat, complete: bool)
  {
    Layout(lines, line, shown) && Counting(lines, total, line, count, shown, chars, complete)
  }

  /** What is shown: the full lines before the current one and part of it. */
  lemma SumLengthsOfLine(shown: seq<string>, line: nat)
    requires line <= |shown| <= line + 1
    ensures SumLengths(shown) == SumLengths(shown[..line]) + ShownOfLine(line, shown)
  {
    if line < |shown| {
      assert shown[..line] == shown[..|shown| - 1];
    } else {
      assert shown[..line] == shown;
    }
  }

  /** Storing the current line's text replaces what is shown of it. */
  lemma SumLengthsPutLine(shown: seq<string>, line: nat, v: string)
    requires line <= |shown| <= line + 1
    ensures SumLengths(Put(shown, line, v)) == SumLengths(shown[..line]) + |v|
  {
    var r := Put(shown, line, v);
    assert r[..|r| - 1] == shown[..line];
  }

  /** A frame swap keeps the layout of the board. */
  lemma RevealKeepsLayout(lines: seq<string>, line: nat, count: nat, shown: seq<string>)
    requires Layout(lines, line, shown) && line < |lines|
    ensures var r := Reveal(lines, line, count, shown); Layout(lines, r.0, r.2)
  {
    var len := |lines[line]|;
    var n := if count < len then count else len;
    if n > 0 {
      var v := if n == len then lines[line] else lines[line][..n];
      var r := Put(shown, line, v);
      assert forall k :: 0 <= k < line ==> r[k] == lines[k];
      if n == len {
        assert r[line] == lines[line];
      } else {
        assert r[line] == lines[line][..|r[line]|];
      }
    }
  }

  /** A frame swap counts one more character and shows one more, after the first. */
  lemma RevealKeepsCounting(lines: seq<string>, total: nat, line: nat, count: nat, shown: seq<string>, chars: nat)
    requires Showing(lines, total, line, count, shown, chars, false)
    requires chars <= total && line < |lines|
    ensures var r := Reveal(lines, line, count, shown);
      Counting(lines, total, r.0, r.1, r.2, chars + 1, false)
  {
    var len := |lines[line]|;
    var n := if count < len then count else len;
    var v := if n == len then lines[line] else lines[line][..n];
    SumLengthsOfLine(shown, line);
    SumLengthsPutLine(shown, line, v);
  }

  /** A frame swap keeps the shape of the board and counts one more character. */
  lemma RevealKeepsShowing(lines: seq<string>, total: nat, line: nat, count: nat, shown: seq<string>, chars: nat)
    requires Showing(lines, total, line, count, shown, chars, false)
    requires chars <= total && line < |lines|
    ensures var r := Reveal(lines, line, count, shown);
      Showing(lines, total, r.0, r.1, r.2, chars + 1, false)
  {
    RevealKeepsLayout(lines, line, count, shown);
    RevealKeepsCounting(lines, total, line, count, shown, chars);
  }

  /** A board that has shown nothing yet has the shape of `Showing`. */
  lemma FreshBoard(lines: seq<string>)
    requires |lines| >= 1 && forall k :: 1 <= k < |lines| ==> lines[k] != ""
    ensures Showing(lines, SumLengths(lines), 0, 0, [], 0, false)
  {
  }

  /** While characters remain to be counted, the board is not past its last line. */
  lemma LinesRemainWhileShowing(lines: seq<string>, total: nat, line: nat, count: nat,
                                shown: seq<string>, chars: nat, complete: bool)
    requires Showing(lines, total, line, count, shown, chars, complete)
    ensures chars <= total ==> line < |lines|
  {
    if chars <= total && line == |lines| {
      ShownInFull(lines, total, line, count, shown, chars, complete);
    }
  }

  /**
   * Once more characters have been counted than there are, or the last line
   * is passed, every line is shown in full (unless the first line stalls).
   */
  lemma ShownInFull(lines: seq<string>, total: nat, line: nat, count: nat,
                    shown: seq<string>, chars: nat, complete: bool)
    requires Showing(lines, total, line, count, shown, chars, complete) && lines[0] != ""
    ensures (chars > total || line == |lines|) ==> shown == lines && chars == total + 1
  {
    if line < |lines| {
      // the partly shown current line keeps the count below the total
      assert shown[..line] == lines[..line];
      SumLengthsOfLine(shown, line);
      assert lines[..line + 1] == lines[..line] + [lines[line]];
      SumLengthsPut(lines[..line], lines[line]);
      SumLengthsPrefix(lines, line + 1);
    } else {
      assert shown == lines;
    }
  }

  class Messager {
    var sentences: seq<string>
    var currentSentence: nat
    var textBuffer: string
    var count: nat
    var totalChars: nat
    var charsDisplayed: nat
    var isComplete: bool
    var lines: seq<string>
    var bufferedLines: seq<string>
    var currentLine: nat
    var fps: int
    var animationUpdateTime: real
    var timeSinceLastFrameSwap: real
    var fontSize: int

    ghost predicate Valid()
      reads this
    {
      Showing(lines, totalChars, currentLine, count, bufferedLines, charsDisplayed, isComplete)
    }

    /** `init`; a single string is wrapped into a one-element list of sentences. */
    constructor (text: Sentences, fontSizeOption: Option<int>)
      requires text.Text? || |text.items| > 0
      ensures Valid()
      ensures sentences == SentenceList(text) && currentSentence == 0
      ensures lines == Lines(sentences[0]) && totalChars == SumLengths(lines)
      ensures count == 0 && charsDisplayed == 0 && !isComplete
      ensures bufferedLines == [] && currentLine == 0
      ensures fps == 12 && animationUpdateTime == 1000.0 / 12.0 && timeSinceLastFrameSwap == 0.0
      ensures fontSize == if fontSizeOption.Some? && fontSizeOption.value != 0 then fontSizeOption.value else 11
    {
      var list, wrapped, total := Prepare(text);
      FreshBoard(wrapped);
      sentences := list;
      currentSentence := 0;
      textBuffer := "";
      count := 0;
      charsDisplayed := 0;
      isComplete := false;
      bufferedLines := [];
      currentLine := 0;
      fps := 12;
      animationUpdateTime := 1000.0 / 12.0;
      timeSinceLastFrameSwap := 0.0;
      fontSize := if fontSizeOption.Some? && fontSizeOption.value != 0 then fontSizeOption.value else 11;
      lines := wrapped;
      totalChars := total;
    }

    /** `update(elapsed)`; the result is true when the completion callback fires. */
    method Update(elapsed: Ms) returns (completed: bool)
      requires Valid()
      modifies this
      ensures Valid()
      ensures sentences == old(sentences) && lines == old(lines) && totalChars == old(totalChars)
      ensures animationUpdateTime == old(animationUpdateTime) && fontSize == old(fontSize) && fps == old(fps)
      // completion: fires once, nothing but the flag and the clock changes
      ensures old(charsDisplayed) > old(totalChars) ==>
        completed == !old(isComplete) && isComplete &&
        timeSinceLastFrameSwap == old(timeSinceLastFrameSwap) + elapsed &&
        charsDisplayed == old(charsDisplayed) && count == old(count) &&
        currentLine == old(currentLine) && bufferedLines == old(bufferedLines)
      ensures completed && lines[0] != "" ==> bufferedLines == lines
      // no swap before strictly more than the frame time has passed
      ensures old(charsDisplayed) <= old(totalChars) ==> !completed && isComplete == old(isComplete)
      ensures old(charsDisplayed) <= old(totalChars) &&
              old(timeSinceLastFrameSwap) + elapsed <= old(animationUpdateTime) ==>
        timeSinceLastFrameSwap == old(timeSinceLastFrameSwap) + elapsed &&
        charsDisplayed == old(charsDisplayed) && count == old(count) &&
        currentLine == old(currentLine) && bufferedLines == old(bufferedLines)
      // a swap: one more character counted, the clock reset
      ensures old(charsDisplayed) <= old(totalChars) &&
              old(timeSinceLastFrameSwap) + elapsed > old(animationUpdateTime) ==>
        timeSinceLastFrameSwap == 0.0 &&
        old(currentLine) < |lines| &&
        charsDisplayed == old(charsDisplayed) + 1 &&
        (currentLine, count, bufferedLines) ==
          Reveal(lines, old(currentLine), old(count), old(bufferedLines))
    {
      timeSinceLastFrameSwap := timeSinceLastFrameSwap + elapsed;
      completed := false;
      if charsDisplayed > totalChars {
        if !isComplete {
          isComplete := true;
          completed := true;
          if lines[0] != "" {
            ShownInFull(lines, totalChars, currentLine, count, bufferedLines, charsDisplayed, isComplete);
          }
        }
        return;
      }
      if timeSinceLastFrameSwap > animationUpdateTime {
        LinesRemainWhileShowing(lines, totalChars, currentLine, count, bufferedLines, charsDisplayed, isComplete);
        if currentLine == |lines| {
          // never taken: the count exceeds the total before the last line is passed
          assert false;
        }
        FrameSwap();
      }
    }

    /** The frame swap of `update`: shows the next character of the current line. */
    method FrameSwap()
      requires Valid() && charsDisplayed <= totalChars && currentLine < |lines|
      modifies this
      ensures Valid()
      ensures sentences == old(sentences) && lines == old(lines) && totalChars == old(totalChars)
      ensures animationUpdateTime == old(animationUpdateTime) && fontSize == old(fontSize) && fps == old(fps)
      ensures isComplete == old(isComplete) && timeSinceLastFrameSwap == 0.0
      ensures charsDisplayed == old(charsDisplayed) + 1
      ensures (currentLine, count, bufferedLines) == Reveal(lines, old(currentLine), old(count), old(bufferedLines))
    {
      RevealKeepsShowing(lines, totalChars, currentLine, count, bufferedLines, charsDisplayed);
      var line, cnt, shown := ShowLine(lines, currentLine, count, bufferedLines);
      currentLine, count, bufferedLines := line, cnt + 1, shown;
      charsDisplayed := charsDisplayed + 1;
      timeSinceLastFrameSwap := 0.0;
    }
  }

  /** `textIntoLines`: the word loop that wraps one sentence into lines. */
  method TextIntoLines(sentence: string) returns (lines: seq<string>)
    ensures lines == Lines(sentence)
  {
    var buffer := "";
    var words := Split(sentence);
    lines := [];
    var i := 0;
    while i < |words|
      invariant i <= |words|
      invariant Wrap(lines, buffer) == Fold(words[..i])
    {
      var word := words[i];
      assert words[..i + 1][..i] == words[..i];
      if |buffer| + |Strip(word)| + 1 <= MaxChars {
        if '|' in word {
          lines := lines + [buffer];
          buffer := Strip(word) + " ";
        } else {
          buffer := buffer + Strip(word) + " ";
        }
      } else {
        lines := lines + [buffer];
        buffer := Strip(word) + " ";
      }
      i := i + 1;
    }
    assert words[..i] == words;
    lines := lines + [buffer];
  }

  /**
   * What `init` computes before storing it: the list of sentences, the
   * lines of the first one (`textIntoLines`) and their total length.
   */
  method Prepare(text: Sentences) returns (list: seq<string>, lines: seq<string>, total: nat)
    requires text.Text? || |text.items| > 0
    ensures list == SentenceList(text) && |list| > 0
    ensures lines == Lines(list[0]) && total == SumLengths(lines)
    ensures |lines| >= 1 && forall k :: 1 <= k < |lines| ==> lines[k] != ""
  {
    list := SentenceList(text);
    lines := TextIntoLines(list[0]);
    total := TotalChars(lines);
    LaterLinesNonEmpty(list[0]);
  }

  /** The loop of `init` that adds up the line lengths. */
  method TotalChars(lines: seq<string>) returns (total: nat)
    ensures total == SumLengths(lines)
  {
    total := 0;
    var k := 0;
    while k < |lines|
      invariant k <= |lines|
      invariant total == SumLengths(lines[..k])
    {
      assert lines[..k + 1][..k] == lines[..k];
      total := total + |lines[k]|;
      k := k + 1;
    }
    assert lines[..k] == lines;
  }

  /**
   * The character loop of `update`: rebuilds the shown part of the current
   * line one character at a time, moving to the next line (count 0) when the
   * last character is reached. The count is incremented by the caller.
   */
  method ShowLine(lines: seq<string>, line: nat, count: nat, shown: seq<string>)
    returns (line': nat, count': nat, shown': seq<string>)
    requires line < |lines| && line <= |shown|
    ensures (line', count' + 1, shown') == Reveal(lines, line, count, shown)
  {
    var buffer := "";
    var i := 0;
    line', count', shown' := line, count, shown;
    ghost var len := |lines[line]|;
    while i < count' && i < |lines[line']|
      invariant i <= count && i <= len
      invariant buffer == lines[line][..i]
      invariant shown' == if i == 0 then shown else Put(shown, line, buffer)
      invariant (line', count') == if 0 < i == len then (line + 1, 0) else (line, count)
    {
      assert lines[line][..i + 1] == lines[line][..i] + [lines[line][i]];
      buffer := buffer + [lines[line'][i]];
      shown' := Put(shown', line', buffer);
      if i == |lines[line']| - 1 {
        line' := line' + 1;
        count' := 0;
      }
      i := i + 1;
    }
    assert lines[line][..len] == lines[line];
  }
}
