/**
 * `LabelPreviewDialog._wrap_text` of gui/dialogs/label_preview_dialog.py:
 * a greedy word wrap that estimates a line's width as its length times
 * half the font size. The wrap is specified on groups of words, one group
 * per line; a line is its group joined with single spaces.
 */
module LabelPreview {
  import opened Text

  /** The words placed so far: the finished lines and the line being filled. */
  datatype WrapState = WrapState(done: seq<seq<string>>, current: seq<string>)

  /** Whether a line made of `group` is wider than `maxWidth` at `unit` per character. */
  predicate Overflows(group: seq<string>, unit: int, maxWidth: int) {
    |Join(group, " ")| * unit > maxWidth
  }

  /** One iteration of the loop: start the line, extend it, or finish it and start a new one. */
  function Step(s: WrapState, word: string, unit: int, maxWidth: int): WrapState {
    if s.current == [] then WrapState(s.done, [word])
    else if Overflows(s.current + [word], unit, maxWidth) then WrapState(s.done + [s.current], [word])
    else WrapState(s.done, s.current + [word])
  }

  /** The state after the loop has taken every word in order. */
  function Fold(words: seq<string>, unit: int, maxWidth: int): WrapState {
    if words == [] then WrapState([], [])
    else Step(Fold(words[..|words| - 1], unit, maxWidth), words[|words| - 1], unit, maxWidth)
  }

  /** The lines as groups of words. */
  function Groups(words: seq<string>, unit: int, maxWidth: int): seq<seq<string>> {
    var s := Fold(words, unit, maxWidth);
    s.done + (if s.current == [] then [] else [s.current])
  }

  /** The words of all groups in order. */
  function Flatten(groups: seq<seq<string>>): seq<string> {
    if groups == [] then [] else Flatten(groups[..|groups| - 1]) + groups[|groups| - 1]
  }

  /** Each group joined with single spaces. */
  function JoinEach(groups: seq<seq<string>>): (lines: seq<string>)
    ensures |lines| == |groups|
  {
    if groups == [] then [] else JoinEach(groups[..|groups| - 1]) + [Join(groups[|groups| - 1], " ")]
  }

  /** The result of `_wrap_text(text, max_width, font_size)`; `//` by 2 is Dafny's `/` by 2. */
  function WrapLines(text: string, maxWidth: int, fontSize: int): seq<string> {
    var groups := Groups(Words(text), fontSize / 2, maxWidth);
    if groups == [] then [text] else JoinEach(groups)
  }

  // ---------------------------------------------------------------------------
  // What the loop keeps

  /** The groups so far hold exactly the words taken, in order. */
  lemma {:induction false} FoldCovers(words: seq<string>, unit: int, maxWidth: int)
    ensures Flatten(Fold(words, unit, maxWidth).done) + Fold(words, unit, maxWidth).current == words
  {
    if words != [] {
      var init := words[..|words| - 1];
      var s := Fold(init, unit, maxWidth);
      FoldCovers(init, unit, maxWidth);
      assert words == init + [words[|words| - 1]];
      if s.current != [] && Overflows(s.current + [words[|words| - 1]], unit, maxWidth) {
        assert (s.done + [s.current])[..|s.done|] == s.done;
      }
    }
  }

  /** No group is empty, and once a word is taken there is a line being filled. */
  lemma {:induction false} FoldNonEmpty(words: seq<string>, unit: int, maxWidth: int)
    ensures forall i :: 0 <= i < |Fold(words, unit, maxWidth).done| ==> Fold(words, unit, maxWidth).done[i] != []
    ensures words != [] <==> Fold(words, unit, maxWidth).current != []
  {
    if words != [] {
      FoldNonEmpty(words[..|words| - 1], unit, maxWidth);
    }
  }

  /** Every group of more than one word fits the width. */
  lemma {:induction false} FoldFits(words: seq<string>, unit: int, maxWidth: int)
    ensures forall i :: 0 <= i < |Fold(words, unit, maxWidth).done| ==>
      |Fold(words, unit, maxWidth).done[i]| > 1 ==> !Overflows(Fold(words, unit, maxWidth).done[i], unit, maxWidth)
    ensures |Fold(words, unit, maxWidth).current| > 1 ==> !Overflows(Fold(words, unit, maxWidth).current, unit, maxWidth)
  {
    if words != [] {
      FoldFits(words[..|words| - 1], unit, maxWidth);
    }
  }

  /** The first word of the group after `i`. */
  function NextWord(s: WrapState, i: nat): string
    requires i < |s.done|
    requires forall j :: 0 <= j < |s.done| ==> s.done[j] != []
    requires s.current != []
  {
    if i + 1 < |s.done| then s.done[i + 1][0] else s.current[0]
  }

  /** Each finished group was finished because the next word would not have fitted on it. */
  lemma {:induction false} FoldGreedy(words: seq<string>, unit: int, maxWidth: int)
    requires words != []
    ensures forall j :: 0 <= j < |Fold(words, unit, maxWidth).done| ==> Fold(words, unit, maxWidth).done[j] != []
    ensures Fold(words, unit, maxWidth).current != []
    ensures forall i :: 0 <= i < |Fold(words, unit, maxWidth).done| ==>
      Overflows(Fold(words, unit, maxWidth).done[i] + [NextWord(Fold(words, unit, maxWidth), i)], unit, maxWidth)
  {
    FoldNonEmpty(words, unit, maxWidth);
    var init := words[..|words| - 1];
    var w := words[|words| - 1];
    var s := Fold(init, unit, maxWidth);
    var t := Fold(words, unit, maxWidth);
    if init != [] {
      FoldGreedy(init, unit, maxWidth);
      if Overflows(s.current + [w], unit, maxWidth) {
        forall i | 0 <= i < |t.done| ensures Overflows(t.done[i] + [NextWord(t, i)], unit, maxWidth) {
          if i < |s.done| {
            assert NextWord(t, i) == NextWord(s, i);
          }
        }
      } else {
        forall i | 0 <= i < |t.done| ensures Overflows(t.done[i] + [NextWord(t, i)], unit, maxWidth) {
          assert NextWord(t, i) == NextWord(s, i);
        }
      }
    } else {
      FoldNonEmpty(init, unit, maxWidth);
    }
  }

  // ---------------------------------------------------------------------------
  // The lines

  /** The lines hold every word once, in order, none split: the groups partition the words. */
  lemma GroupsPartition(words: seq<string>, unit: int, maxWidth: int)
    ensures Flatten(Groups(words, unit, maxWidth)) == words
    ensures forall i :: 0 <= i < |Groups(words, unit, maxWidth)| ==> Groups(words, unit, maxWidth)[i] != []
    ensures Groups(words, unit, maxWidth) == [] <==> words == []
  {
    var s := Fold(words, unit, maxWidth);
    FoldCovers(words, unit, maxWidth);
    FoldNonEmpty(words, unit, maxWidth);
    if s.current != [] {
      assert (s.done + [s.current])[..|s.done|] == s.done;
    }
  }

  /** A line too wide for the label is a single word. */
  lemma GroupsOverflowSingle(words: seq<string>, unit: int, maxWidth: int, i: int)
    requires 0 <= i < |Groups(words, unit, maxWidth)|
    requires Overflows(Groups(words, unit, maxWidth)[i], unit, maxWidth)
    ensures |Groups(words, unit, maxWidth)[i]| == 1
  {
    FoldFits(words, unit, maxWidth);
    FoldNonEmpty(words, unit, maxWidth);
  }

  /** Every break is forced: the next line's first word would not have fitted. */
  lemma GroupsGreedy(words: seq<string>, unit: int, maxWidth: int, i: int)
    requires 0 <= i < |Groups(words, unit, maxWidth)| - 1
    ensures Groups(words, unit, maxWidth)[i + 1] != []
    ensures Overflows(Groups(words, unit, maxWidth)[i] + [Groups(words, unit, maxWidth)[i + 1][0]], unit, maxWidth)
  {
    FoldGreedy(words, unit, maxWidth);
    var s := Fold(words, unit, maxWidth);
    assert Groups(words, unit, maxWidth) == s.done + [s.current];
  }

  /** Joining the lines with spaces joins the words with spaces. */
  lemma {:induction false} JoinEachFlatten(groups: seq<seq<string>>)
    requires forall i :: 0 <= i < |groups| ==> groups[i] != []
    ensures Join(JoinEach(groups), " ") == Join(Flatten(groups), " ")
  {
    if |groups| > 1 {
      var init := groups[..|groups| - 1];
      var last := groups[|groups| - 1];
      JoinEachFlatten(init);
      FlattenNonEmpty(init);
      JoinConcat(JoinEach(init), [Join(last, " ")], " ");
      JoinConcat(Flatten(init), last, " ");
    } else if |groups| == 1 {
      assert groups[..0] == [];
      assert JoinEach(groups) == [Join(groups[0], " ")];
      assert Flatten(groups) == groups[0];
    }
  }

  lemma {:induction false} FlattenNonEmpty(groups: seq<seq<string>>)
    requires groups != [] && forall i :: 0 <= i < |groups| ==> groups[i] != []
    ensures Flatten(groups) != []
  {
  }

  /**
   * The wrapped lines of a text with words are non-empty, and joined with
   * single spaces they give the text's words joined with single spaces; a
   * text without words comes back as the one line it is.
   */
  lemma WrapLinesWords(text: string, maxWidth: int, fontSize: int)
    ensures Words(text) == [] ==> WrapLines(text, maxWidth, fontSize) == [text]
    ensures Words(text) != [] ==>
      Join(WrapLines(text, maxWidth, fontSize), " ") == Join(Words(text), " ")
      && forall i :: 0 <= i < |WrapLines(text, maxWidth, fontSize)| ==> WrapLines(text, maxWidth, fontSize)[i] != []
  {
    var words := Words(text);
    var groups := Groups(words, fontSize / 2, maxWidth);
    GroupsPartition(words, fontSize / 2, maxWidth);
    if words != [] {
      JoinEachFlatten(groups);
      forall i | 0 <= i < |groups| ensures JoinEach(groups)[i] != [] {
        JoinEachAt(groups, i);
        JoinHead(groups[i], " ");
        FlattenMember(groups, i, 0);
      }
    }
  }

  /** A wrapped line wider than the label is one of the text's words. */
  lemma WrapLinesOverflowIsWord(text: string, maxWidth: int, fontSize: int, i: int)
    requires Words(text) != []
    requires 0 <= i < |WrapLines(text, maxWidth, fontSize)|
    requires |WrapLines(text, maxWidth, fontSize)[i]| * (fontSize / 2) > maxWidth
    ensures WrapLines(text, maxWidth, fontSize)[i] in Words(text)
    ensures NoSpace(WrapLines(text, maxWidth, fontSize)[i])
  {
    var words := Words(text);
    var groups := Groups(words, fontSize / 2, maxWidth);
    GroupsPartition(words, fontSize / 2, maxWidth);
    JoinEachAt(groups, i);
    GroupsOverflowSingle(words, fontSize / 2, maxWidth, i);
    FlattenMember(groups, i, 0);
  }

  lemma {:induction false} JoinEachAt(groups: seq<seq<string>>, i: int)
    requires 0 <= i < |groups|
    ensures JoinEach(groups)[i] == Join(groups[i], " ")
  {
    if i < |groups| - 1 {
      JoinEachAt(groups[..|groups| - 1], i);
    }
  }

  lemma {:induction false} FlattenMember(groups: seq<seq<string>>, i: int, j: int)
    requires 0 <= i < |groups| && 0 <= j < |groups[i]|
    ensures groups[i][j] in Flatten(groups)
  {
    if i < |groups| - 1 {
      FlattenMember(groups[..|groups| - 1], i, j);
    }
  }

  /** A join starts with its first part. */
  lemma JoinHead(parts: seq<string>, sep: string)
    requires parts != []
    ensures StartsWith(Join(parts, sep), parts[0])
  {
  }

  // ---------------------------------------------------------------------------
  // The loop

  /** One pass of the loop body on strings is one `Step` on groups. */
  lemma StepOnLines(s: WrapState, word: string, unit: int, maxWidth: int)
    requires word != []
    requires forall j :: 0 <= j < |s.current| ==> s.current[j] != []
    requires Join(s.current, " ") == "" <==> s.current == []
    ensures var t := Step(s, word, unit, maxWidth);
      var line := Join(s.current, " ");
      var test := if line != "" then line + " " + word else word;
      && JoinEach(t.done) == (if |test| * unit > maxWidth && line != "" then JoinEach(s.done) + [line] else JoinEach(s.done))
      && Join(t.current, " ") == (if |test| * unit > maxWidth then word else test)
      && t.current != [] && Join(t.current, " ") != ""
      && forall j :: 0 <= j < |t.current| ==> t.current[j] != []
  {
    var t := Step(s, word, unit, maxWidth);
    if s.current != [] {
      JoinConcat(s.current, [word], " ");
      if Overflows(s.current + [word], unit, maxWidth) {
        assert (s.done + [s.current])[..|s.done|] == s.done;
      }
    }
    JoinHead(t.current, " ");
  }

  lemma FoldStep(words: seq<string>, i: int, unit: int, maxWidth: int)
    requires 0 <= i < |words|
    ensures Fold(words[..i + 1], unit, maxWidth) == Step(Fold(words[..i], unit, maxWidth), words[i], unit, maxWidth)
  {
    assert words[..i + 1][..i] == words[..i];
  }

  lemma JoinEachStep(groups: seq<seq<string>>, g: seq<string>)
    ensures JoinEach(groups + [g]) == JoinEach(groups) + [Join(g, " ")]
  {
    assert (groups + [g])[..|groups|] == groups;
  }

  /** The loop of `_wrap_text` over the words: the finished lines and the line being filled. */
  method WrapWords(words: seq<string>, unit: int, maxWidth: int) returns (lines: seq<string>, currentLine: string)
    requires forall i :: 0 <= i < |words| ==> words[i] != []
    ensures lines == JoinEach(Fold(words, unit, maxWidth).done)
    ensures currentLine == Join(Fold(words, unit, maxWidth).current, " ")
    ensures currentLine == "" <==> Fold(words, unit, maxWidth).current == []
  {
    lines := [];
    currentLine := "";
    ghost var s := WrapState([], []);
    for i := 0 to |words|
      invariant s == Fold(words[..i], unit, maxWidth)
      invariant lines == JoinEach(s.done)
      invariant currentLine == Join(s.current, " ")
      invariant currentLine == "" <==> s.current == []
      invariant forall j :: 0 <= j < |s.current| ==> s.current[j] != []
    {
      var word := words[i];
      FoldStep(words, i, unit, maxWidth);
      StepOnLines(s, word, unit, maxWidth);
      var testLine := if currentLine != "" then currentLine + " " + word else word;
      if |testLine| * unit > maxWidth {
        if currentLine != "" {
          lines := lines + [currentLine];
        }
        currentLine := word;
      } else {
        currentLine := testLine;
      }
      s := Step(s, word, unit, maxWidth);
    }
    assert words[..|words|] == words;
  }

  /** `_wrap_text` */
  method WrapText(text: string, maxWidth: int, fontSize: int) returns (lines: seq<string>)
    ensures lines == WrapLines(text, maxWidth, fontSize)
  {
    var words := Words(text);
    var unit := fontSize / 2;
    var currentLine;
    lines, currentLine := WrapWords(words, unit, maxWidth);
    ghost var s := Fold(words, unit, maxWidth);
    if currentLine != "" {
      JoinEachStep(s.done, s.current);
      lines := lines + [currentLine];
    }
    if lines == [] {
      lines := [text];
    }
  }
}
