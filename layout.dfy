/**
 * Text layout shared by the two Instagram card generators: the greedy word wrap written as a
 * loop over `description.split()`, and the cursor that draws a bounded number of lines one
 * below the other.
 */
module Layout {
  import opened Prelude
  import opened Text

  /** The wrapping loop's variables: the finished lines (as word groups) and the current one. */
  datatype WrapState = WrapState(done: seq<seq<string>>, current: seq<string>)

  /**
   * One turn of the loop: append the word; if the line, joined with spaces, is now longer
   * than `width`, finish it without the word and start a new line with the word alone.
   */
  function WrapStep(st: WrapState, word: string, width: nat): WrapState
  {
    var cur := st.current + [word];
    if |Join(cur, " ")| > width then WrapState(st.done + [st.current], [word])
    else WrapState(st.done, cur)
  }

  function WrapFold(words: seq<string>, width: nat): WrapState
  {
    if words == [] then WrapState([], [])
    else WrapStep(WrapFold(words[..|words| - 1], width), words[|words| - 1], width)
  }

  /** The word groups of the wrapped lines: the finished ones and a last non-empty one. */
  function WrapGroups(words: seq<string>, width: nat): seq<seq<string>>
  {
    var st := WrapFold(words, width);
    if st.current != [] then st.done + [st.current] else st.done
  }

  function JoinLines(groups: seq<seq<string>>): (lines: seq<string>)
    ensures |lines| == |groups|
    ensures forall i :: 0 <= i < |groups| ==> lines[i] == Join(groups[i], " ")
  {
    seq(|groups|, i requires 0 <= i < |groups| => Join(groups[i], " "))
  }

  /** A line fits when it is no wider than `width` unless it is a single word. */
  predicate Fits(g: seq<string>, width: nat)
  {
    |Join(g, " ")| <= width || |g| <= 1
  }

  /** The line `g` was finished because the word after it did not fit on it. */
  predicate Overflows(g: seq<string>, next: string, width: nat)
  {
    |Join(g + [next], " ")| > width
  }

  lemma {:induction false} FoldKeepsWords(words: seq<string>, width: nat)
    ensures Flatten(WrapFold(words, width).done) + WrapFold(words, width).current == words
    ensures WrapFold(words, width).current == [] <==> words == []
  {
    if words != [] {
      var init := words[..|words| - 1];
      var w := words[|words| - 1];
      FoldKeepsWords(init, width);
      var st := WrapFold(init, width);
      assert words == init + [w];
      if |Join(st.current + [w], " ")| > width {
        FlattenAppend(st.done, [st.current]);
        FlattenSingle(st.current);
      }
    }
  }

  lemma {:induction false} FoldFits(words: seq<string>, width: nat)
    ensures Fits(WrapFold(words, width).current, width)
    ensures forall i :: 0 <= i < |WrapFold(words, width).done| ==> Fits(WrapFold(words, width).done[i], width)
  {
    if words != [] {
      FoldFits(words[..|words| - 1], width);
      assert Join([words[|words| - 1]], " ") == words[|words| - 1];
    }
  }

  lemma {:induction false} FoldEmptyLine(words: seq<string>, width: nat)
    ensures forall i :: 0 <= i < |WrapFold(words, width).done| ==>
      (WrapFold(words, width).done[i] == [] <==> i == 0 && words != [] && |words[0]| > width)
  {
    if words != [] {
      var init := words[..|words| - 1];
      var w := words[|words| - 1];
      FoldEmptyLine(init, width);
      FoldKeepsWords(init, width);
      var st := WrapFold(init, width);
      if init != [] { assert words[0] == init[0]; }
      if |Join(st.current + [w], " ")| > width {
        if st.current == [] {
          assert words == [w] && st.done == [];
          assert Join([w], " ") == w;
        }
      }
    }
  }

  lemma {:induction false} FoldOverflows(words: seq<string>, width: nat)
    ensures forall i :: 1 <= i < |WrapFold(words, width).done| ==>
      WrapFold(words, width).done[i] != [] &&
      Overflows(WrapFold(words, width).done[i - 1], WrapFold(words, width).done[i][0], width)
    ensures |WrapFold(words, width).done| > 0 ==>
      WrapFold(words, width).current != [] &&
      Overflows(WrapFold(words, width).done[|WrapFold(words, width).done| - 1], WrapFold(words, width).current[0], width)
  {
    if words != [] {
      var init := words[..|words| - 1];
      var w := words[|words| - 1];
      FoldOverflows(init, width);
      FoldEmptyLine(init, width);
      FoldKeepsWords(init, width);
      var st := WrapFold(init, width);
      if |Join(st.current + [w], " ")| > width {
        var d := st.done + [st.current];
        assert WrapFold(words, width).done == d;
        forall i | 1 <= i < |d| ensures d[i] != [] && Overflows(d[i - 1], d[i][0], width) {
          if i == |d| - 1 {
            assert st.current != [] by { assert |st.done| > 0 ==> st.current != []; }
          }
        }
      } else if st.done != [] {
        assert (st.current + [w])[0] == st.current[0];
      }
    }
  }

  /**
   * What the wrap guarantees: the lines hold exactly the words in order; each is no wider than
   * `width` unless it is one long word; only the first line can be empty, and it is exactly when
   * the first word alone is too wide; and every line ends only because the next word would
   * not fit on it.
   */
  lemma WrapGroupsProperties(words: seq<string>, width: nat)
    ensures Flatten(WrapGroups(words, width)) == words
    ensures forall i :: 0 <= i < |WrapGroups(words, width)| ==> Fits(WrapGroups(words, width)[i], width)
    ensures forall i :: 0 <= i < |WrapGroups(words, width)| ==>
      (WrapGroups(words, width)[i] == [] <==> i == 0 && words != [] && |words[0]| > width)
    ensures forall i :: 1 <= i < |WrapGroups(words, width)| ==>
      WrapGroups(words, width)[i] != [] &&
      Overflows(WrapGroups(words, width)[i - 1], WrapGroups(words, width)[i][0], width)
  {
    FoldKeepsWords(words, width);
    FoldFits(words, width);
    FoldEmptyLine(words, width);
    FoldOverflows(words, width);
    var st := WrapFold(words, width);
    if st.current != [] {
      FlattenAppend(st.done, [st.current]);
      FlattenSingle(st.current);
    }
  }

  /** The loop of the card generators: wraps `text`'s words into lines of at most `width` characters. */
  method WrapText(text: string, width: nat) returns (lines: seq<string>)
    ensures lines == JoinLines(WrapGroups(SplitWords(text), width))
  {
    var words := SplitWords(text);
    var current: seq<string> := [];
    lines := [];
    for i := 0 to |words|
      invariant current == WrapFold(words[..i], width).current
      invariant lines == JoinLines(WrapFold(words[..i], width).done)
    {
      assert words[..i + 1][..i] == words[..i];
      var done := WrapFold(words[..i], width).done;
      current := current + [words[i]];
      if |Join(current, " ")| > width {
        assert JoinLines(done + [current[..|current| - 1]]) == lines + [Join(current[..|current| - 1], " ")];
        lines := lines + [Join(current[..|current| - 1], " ")];
        current := [words[i]];
      }
    }
    assert words[..|words|] == words;
    if current != [] {
      assert JoinLines(WrapFold(words, width).done + [current]) == lines + [Join(current, " ")];
      lines := lines + [Join(current, " ")];
    }
  }

  /** Splitting the wrapped lines into words again gives the text's words, in order. */
  lemma {:induction false} WrappedLinesKeepWords(groups: seq<seq<string>>)
    requires forall i, j :: 0 <= i < |groups| && 0 <= j < |groups[i]| ==> IsWord(groups[i][j])
    ensures Flatten(seq(|groups|, i requires 0 <= i < |groups| => SplitWords(JoinLines(groups)[i]))) == Flatten(groups)
  {
    var split := seq(|groups|, i requires 0 <= i < |groups| => SplitWords(JoinLines(groups)[i]));
    if groups != [] {
      SplitJoinWords(groups[0]);
      WrappedLinesKeepWords(groups[1..]);
      var rest := seq(|groups[1..]|, i requires 0 <= i < |groups[1..]| => SplitWords(JoinLines(groups[1..])[i]));
      assert split[1..] == rest;
    }
  }

  /**
   * `for line in lines[:maxLines]: draw.text((x, y), line); y += step`: where each drawn line
   * goes and where the cursor ends.
   */
  method PlaceLines(lines: seq<string>, y0: int, maxLines: nat, step: int) returns (placed: seq<(string, int)>, yEnd: int)
    ensures |placed| == Min(maxLines, |lines|)
    ensures forall i :: 0 <= i < |placed| ==> placed[i] == (lines[i], y0 + step * i)
    ensures yEnd == y0 + step * |placed|
  {
    var shown := Prefix(lines, maxLines);
    placed := [];
    var y := y0;
    for i := 0 to |shown|
      invariant |placed| == i
      invariant forall k :: 0 <= k < i ==> placed[k] == (lines[k], y0 + step * k)
      invariant y == y0 + step * i
    {
      placed := placed + [(shown[i], y)];
      y := y + step;
    }
    yEnd := y;
  }
}
