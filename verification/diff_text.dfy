/**
 The writer and the applier on texts. A text is cut into lines at its newlines; what the writer
 makes of two texts, the applier turns back into the second one, exactly when no line that the
 diff keeps or adds lacks its newline.
 */
module DiffText {
  import opened Wrappers
  import opened Diff
  import opened DiffSplice
  import opened DiffHeaders
  import opened DiffWriter

  // --- texts and lines ----------------------------------------------------------------

  function Concat(lines: Lines): string {
    if lines == [] then "" else lines[0] + Concat(lines[1..])
  }

  /** Where the first line ends. */
  function FirstBreak(text: string): (k: nat)
    ensures k <= |text| && (k < |text| ==> text[k] == '\n') && forall i :: 0 <= i < k ==> text[i] != '\n'
  {
    if text == "" || text[0] == '\n' then 0 else 1 + FirstBreak(text[1..])
  }

  /** `splitlines(keepends=True)`. */
  function SplitLines(text: string): Lines
    decreases |text|
  {
    var k := FirstBreak(text);
    if text == "" then [] else if k == |text| then [text] else [text[..k + 1]] + SplitLines(text[k + 1..])
  }

  /** No newline before the end. */
  ghost predicate Unbroken(line: string) {
    forall i :: 0 <= i < |line| - 1 ==> line[i] != '\n'
  }

  /** Lines as a text is cut into them: only the last one may lack its newline. */
  ghost predicate AreLines(lines: Lines) {
    && (forall i :: 0 <= i < |lines| ==> lines[i] != "" && Unbroken(lines[i]))
    && (forall i :: 0 <= i < |lines| - 1 ==> IsEnded(lines[i]))
  }

  lemma SplitFirst(text: string)
    requires FirstBreak(text) < |text|
    ensures var k := FirstBreak(text); SplitLines(text) == [text[..k + 1]] + SplitLines(text[k + 1..])
  {
    hide FirstBreak;
  }

  lemma FirstLine(text: string, k: nat)
    requires k < |text| && text[k] == '\n' && forall i :: 0 <= i < k ==> text[i] != '\n'
    ensures text[..k + 1] + text[k + 1..] == text
    ensures Unbroken(text[..k + 1]) && IsEnded(text[..k + 1])
  {
    var line := text[..k + 1];
    assert |line| == k + 1 && line[k] == text[k];
    assert forall i :: 0 <= i < k ==> line[i] == text[i];
  }

  lemma SplitLast(text: string)
    requires text != "" && FirstBreak(text) == |text|
    ensures SplitLines(text) == [text] && Unbroken(text) && Concat([text]) == text
  {
    assert [text][1..] == [] && text + "" == text;
  }

  lemma AreLinesFirst(line: string, lines: Lines)
    requires Unbroken(line) && IsEnded(line) && AreLines(lines)
    ensures AreLines([line] + lines)
  {
    hide Unbroken;
  }

  lemma {:induction false} LinesOfText(text: string)
    ensures AreLines(SplitLines(text)) && Concat(SplitLines(text)) == text
    decreases |text|
  {
    hide FirstBreak, Unbroken, IsEnded, AreLines, SplitLines, Concat;
    var k := FirstBreak(text);
    if k < |text| {
      var line, rest := text[..k + 1], text[k + 1..];
      SplitFirst(text);
      FirstLine(text, k);
      LinesOfText(rest);
      AreLinesFirst(line, SplitLines(rest));
      ConcatFirst(line, SplitLines(rest));
    } else if text == "" {
      assert AreLines(SplitLines(text)) && Concat(SplitLines(text)) == "" by { NoLines(); }
    } else {
      SplitLast(text);
      assert AreLines([text]) by { OneLine(text); }
    }
  }

  lemma ConcatFirst(line: string, lines: Lines)
    ensures Concat([line] + lines) == line + Concat(lines)
  {
    assert ([line] + lines)[1..] == lines;
  }

  lemma NoLines()
    ensures SplitLines("") == [] && AreLines([]) && Concat([]) == ""
  {
  }

  lemma OneLine(text: string)
    requires text != "" && Unbroken(text)
    ensures AreLines([text])
  {
  }

  lemma BreakOfFirst(line: string, rest: string)
    requires IsEnded(line) && Unbroken(line)
    ensures FirstBreak(line + rest) == |line| - 1
  {
    var text := line + rest;
    assert text[|line| - 1] == '\n';
    assert forall i :: 0 <= i < |line| - 1 ==> text[i] == line[i];
  }

  lemma {:induction false} TextOfLines(lines: Lines)
    requires AreLines(lines)
    ensures SplitLines(Concat(lines)) == lines
    decreases |lines|
  {
    hide FirstBreak;
    if |lines| == 1 && !IsEnded(lines[0]) {
      assert lines[1..] == [] && Concat(lines) == lines[0];
      assert forall i :: 0 <= i < |lines[0]| ==> lines[0][i] != '\n';
    } else if lines != [] {
      var line, rest := lines[0], Concat(lines[1..]);
      BreakOfFirst(line, rest);
      assert (line + rest)[..|line|] == line && (line + rest)[|line|..] == rest;
      TextOfLines(lines[1..]);
    }
  }

  lemma {:induction false} ConcatOfConcatenation(a: Lines, b: Lines)
    ensures Concat(a + b) == Concat(a) + Concat(b)
  {
    if a == [] {
      assert a + b == b;
    } else {
      assert (a + b)[1..] == a[1..] + b;
      ConcatOfConcatenation(a[1..], b);
    }
  }

  // --- `make_unified_diff`: the lines of the diff become a text ------------------------------

  function Join(lines: Lines): string {
    if lines == [] then "" else if |lines| == 1 then lines[0] else lines[0] + "\n" + Join(lines[1..])
  }

  function Bare(line: string): string {
    if IsEnded(line) then line[..|line| - 1] else line
  }

  function Breaks(lines: Lines): Lines {
    if lines == [] then [] else [lines[0] + "\n"] + Breaks(lines[1..])
  }

  lemma {:induction false} JoinBreaks(lines: Lines)
    requires lines != []
    ensures Join(lines) + "\n" == Concat(Breaks(lines))
  {
    if |lines| > 1 {
      JoinBreaks(lines[1..]);
      assert lines[0] + "\n" + Join(lines[1..]) + "\n" == lines[0] + "\n" + (Join(lines[1..]) + "\n");
    } else {
      assert Breaks(lines[1..]) == [];
    }
  }

  lemma {:induction false} BreaksOfConcatenation(a: Lines, b: Lines)
    ensures Breaks(a + b) == Breaks(a) + Breaks(b)
  {
    if a == [] {
      assert a + b == b;
    } else {
      assert (a + b)[1..] == a[1..] + b;
      BreaksOfConcatenation(a[1..], b);
    }
  }

  lemma OneBreak(line: string)
    ensures Breaks([Bare(line)]) == [Ended(line)] == EndedAll([line])
  {
    if IsEnded(line) {
      assert line[..|line| - 1] + "\n" == line;
    }
  }

  /** The loop that strips the newlines, and the join that puts one behind every line. */
  method MakeText(lines: Lines) returns (text: string)
    ensures text == Concat(EndedAll(lines))
  {
    hide Join, Concat, Breaks, EndedAll, Ended;
    var out: Lines := [];
    NothingYet();
    for k := 0 to |lines|
      invariant |out| == k && Breaks(out) == EndedAll(lines[..k])
    {
      var line := lines[k];
      OneBreak(line);
      BreaksOfConcatenation(out, [Bare(line)]);
      EndedOfConcatenation(lines[..k], [line]);
      assert lines[..k + 1] == lines[..k] + [line];
      if IsEnded(line) {
        out := out + [line[..|line| - 1]];
      } else {
        out := out + [line];
      }
    }
    assert lines[..|lines|] == lines;
    if out != [] {
      JoinBreaks(out);
    } else {
      assert lines == [];
    }
    text := Join(out) + if out != [] then "\n" else "";
  }

  lemma NothingYet()
    ensures Breaks([]) == [] == EndedAll([]) && Join([]) == "" == Concat([])
  {
  }

  // --- `apply_diff_to_bytes` on texts --------------------------------------------------------------

  function ApplyText(original: string, diff: string): Option<string> {
    var out := Apply(SplitLines(original), SplitLines(diff));
    if out.Some? then Some(Concat(out.value)) else None
  }

  /** The texts of all lines of the changes, as they come from two files that were cut into lines. */
  ghost predicate FromFiles(changes: seq<seq<HunkLine>>) {
    forall i, j :: 0 <= i < |changes| && 0 <= j < |changes[i]| ==> Unbroken(changes[i][j].text)
  }

  ghost predicate AllUnbroken(lines: Lines) {
    forall i :: 0 <= i < |lines| ==> Unbroken(lines[i])
  }

  lemma TextIsUnbroken(l: HunkLine)
    requires Unbroken(l.text)
    ensures Unbroken(Text(l))
  {
    if l.text != "" {
      assert forall i :: 0 < i < |Text(l)| - 1 && Text(l) != l.text ==> Text(l)[i] == l.text[i - 1];
    }
  }

  lemma {:induction false} TextsAreUnbroken(lines: seq<HunkLine>)
    requires forall j :: 0 <= j < |lines| ==> Unbroken(lines[j].text)
    ensures AllUnbroken(Texts(lines))
  {
    hide Unbroken, Text;
    if lines != [] {
      TextIsUnbroken(lines[0]);
      TextsAreUnbroken(lines[1..]);
    }
  }

  lemma {:induction false} DiffsAreUnbroken(hunks: seq<Hunk>)
    requires forall i, j :: 0 <= i < |hunks| && 0 <= j < |hunks[i].lines| ==> Unbroken(hunks[i].lines[j].text)
    requires forall i :: 0 <= i < |hunks| ==> Unbroken(hunks[i].header)
    ensures AllUnbroken(Diffs(hunks))
  {
    hide Unbroken, Texts;
    if hunks != [] {
      TextsAreUnbroken(hunks[0].lines);
      forall i, j | 0 <= i < |hunks[1..]| && 0 <= j < |hunks[1..][i].lines|
        ensures Unbroken(hunks[1..][i].lines[j].text)
      {
        assert hunks[1..][i] == hunks[i + 1];
      }
      DiffsAreUnbroken(hunks[1..]);
    }
  }

  ghost predicate NoBreak(s: string) {
    forall i :: 0 <= i < |s| ==> s[i] != '\n'
  }

  lemma RangeIsUnbroken(start: nat, count: nat)
    ensures NoBreak(RangeText(start, count))
  {
    hide Decimal, Number;
    DecimalReads(start);
    DecimalReads(count);
    DigitsAreNoBreak(Decimal(start));
    DigitsAreNoBreak(Decimal(count));
  }

  lemma DigitsAreNoBreak(digits: string)
    requires forall i :: 0 <= i < |digits| ==> IsDigit(digits[i])
    ensures NoBreak(digits)
  {
  }

  lemma HeaderIsUnbroken(oldStart: nat, oldCount: nat, newStart: nat, newCount: nat)
    ensures Unbroken(HeaderLine(oldStart, oldCount, newStart, newCount))
  {
    hide RangeText;
    RangeIsUnbroken(oldStart, oldCount);
    RangeIsUnbroken(newStart, newCount);
    var front := "@@ -" + RangeText(oldStart, oldCount) + " +" + RangeText(newStart, newCount) + " @@";
    assert NoBreak(front);
    assert HeaderLine(oldStart, oldCount, newStart, newCount) == front + "\n";
  }

  lemma {:induction false} HeadersAreUnbroken(gaps: seq<Lines>, changes: seq<seq<HunkLine>>, before: nat, after: nat)
    requires |gaps| == |changes| + 1
    ensures forall i :: 0 <= i < |changes| ==> Unbroken(Write(gaps, changes, before, after)[i].header)
    decreases |changes|
  {
    hide HeaderLine, OldSide, NewSide, Unbroken;
    if changes != [] {
      var b, a := before + |gaps[0]|, after + |gaps[0]|;
      var h := Written(b, a, changes[0]);
      HeaderIsUnbroken(h.starts.oldStart, |OldSide(changes[0])|, h.starts.newStart, |NewSide(changes[0])|);
      HeadersAreUnbroken(gaps[1..], changes[1..], b + |OldSide(changes[0])|, a + |NewSide(changes[0])|);
    }
  }

  lemma EndedIsUnbroken(line: string)
    requires Unbroken(line)
    ensures Unbroken(Ended(line)) && IsEnded(Ended(line))
  {
    if !IsEnded(line) {
      assert Ended(line) == line + "\n";
      assert line != "" ==> line[|line| - 1] != '\n';
    }
  }

  lemma {:induction false} EndedAreLines(lines: Lines)
    requires AllUnbroken(lines)
    ensures AreLines(EndedAll(lines)) && AllEnded(EndedAll(lines))
  {
    hide Unbroken, Ended;
    if lines != [] {
      EndedIsUnbroken(lines[0]);
      EndedAreLines(lines[1..]);
    }
  }

  /** The text of a written diff is read back as its lines. */
  lemma DiffReadsBack(pre: Lines, gaps: seq<Lines>, changes: seq<seq<HunkLine>>)
    requires |gaps| == |changes| + 1 && FromFiles(changes) && AllUnbroken(pre)
    ensures SplitLines(Concat(EndedAll(pre + Diffs(Write(gaps, changes, 0, 0))))) == EndedAll(pre) + EndedAll(Diffs(Write(gaps, changes, 0, 0)))
  {
    hide Diffs, Write, SplitLines, Concat, EndedAll, Unbroken;
    var hunks := Write(gaps, changes, 0, 0);
    LinesOfWritten(gaps, changes, 0, 0);
    HeadersAreUnbroken(gaps, changes, 0, 0);
    forall i, j | 0 <= i < |hunks| && 0 <= j < |hunks[i].lines|
      ensures Unbroken(hunks[i].lines[j].text)
    {
      assert hunks[i].lines == changes[i];
    }
    DiffsAreUnbroken(hunks);
    EndedAreLines(pre + Diffs(hunks));
    TextOfLines(EndedAll(pre + Diffs(hunks)));
    EndedOfConcatenation(pre, Diffs(hunks));
  }

  // --- terminators can be counted ---------------------------------------------------------------------

  lemma {:induction false} EndedIsLonger(lines: Lines)
    ensures |Concat(EndedAll(lines))| >= |Concat(lines)|
    ensures |Concat(EndedAll(lines))| == |Concat(lines)| <==> AllEnded(lines)
  {
    if lines != [] {
      EndedIsLonger(lines[1..]);
      if AllEnded(lines[1..]) && IsEnded(lines[0]) {
        assert forall i :: 0 < i < |lines| ==> lines[i] == lines[1..][i - 1];
      } else if !AllEnded(lines[1..]) {
        var i :| 0 <= i < |lines[1..]| && !IsEnded(lines[1..][i]);
        assert !IsEnded(lines[i + 1]);
      }
    }
  }

  lemma {:induction false} ResultIsLonger(gaps: seq<Lines>, changes: seq<seq<HunkLine>>)
    requires |gaps| == |changes| + 1
    ensures |Concat(Result(gaps, changes))| >= |Concat(After(gaps, changes))|
    ensures |Concat(Result(gaps, changes))| == |Concat(After(gaps, changes))| <==> LinesEnded(changes)
    decreases |changes|
  {
    hide NewSide, OldSide, AllEnded, FinishAll, LinesEnded, Concat;
    if changes == [] {
      NothingToEnd();
    } else {
      var side := NewSide(changes[0]);
      SidesOfFinished(changes[0]);
      EndedIsLonger(side);
      LinesEndedFirst(changes);
      assert FinishChanges(changes)[1..] == FinishChanges(changes[1..]);
      ResultIsLonger(gaps[1..], changes[1..]);
      ThreeParts(gaps[0], EndedAll(side), Result(gaps[1..], changes[1..]));
      ThreeParts(gaps[0], side, After(gaps[1..], changes[1..]));
    }
  }

  lemma ThreeParts(a: Lines, b: Lines, d: Lines)
    ensures |Concat(a + b + d)| == |Concat(a)| + |Concat(b)| + |Concat(d)|
  {
    ConcatOfConcatenation(a + b, d);
    ConcatOfConcatenation(a, b);
  }

  // --- the round trip on texts ----------------------------------------------------------------------------

  /** The two texts, cut into lines, consist of the gaps and the two sides of the changes. */
  ghost predicate Describes(first: string, second: string, gaps: seq<Lines>, changes: seq<seq<HunkLine>>) {
    && changes != [] && |gaps| == |changes| + 1 && Placeable(gaps, changes) && FromFiles(changes)
    && Before(gaps, changes) == SplitLines(first) && After(gaps, changes) == SplitLines(second)
  }

  /** Lines above the first hunk, such as the names of the files. */
  ghost predicate Opening(pre: Lines) {
    Preamble(pre) && AllUnbroken(pre) && AllEnded(pre)
  }

  /** The text that the writer makes of two texts, applied to the first, gives the second exactly when every line that it keeps or adds ends with a newline. */
  lemma TextIsExact(first: string, second: string, pre: Lines, gaps: seq<Lines>, changes: seq<seq<HunkLine>>)
    requires Describes(first, second, gaps, changes) && Opening(pre)
    ensures ApplyText(first, Concat(EndedAll(pre + Diffs(Write(gaps, changes, 0, 0))))) == Some(second) <==> LinesEnded(changes)
  {
    hide Apply, Diffs, Write, Before, After, Result, EndedAll, LinesEnded, Preamble, Placeable, SplitLines, Concat, FromFiles, AllUnbroken;
    DiffReadsBack(pre, gaps, changes);
    EndedAlready(pre);
    WriterApplies(pre, gaps, changes);
    ResultIsLonger(gaps, changes);
    ResultIsAfter(gaps, changes);
    LinesOfText(second);
  }

  /** In particular whenever the second text is empty or ends with a newline. */
  lemma TerminatedTextsRoundTrip(first: string, second: string, pre: Lines, gaps: seq<Lines>, changes: seq<seq<HunkLine>>)
    requires Describes(first, second, gaps, changes) && Opening(pre) && (second == "" || IsEnded(second))
    ensures ApplyText(first, Concat(EndedAll(pre + Diffs(Write(gaps, changes, 0, 0))))) == Some(second)
  {
    hide Diffs, Write, Before, EndedAll, Placeable, ApplyText, Concat, FromFiles, SplitLines, After;
    TextIsExact(first, second, pre, gaps, changes);
    LastIsEnded(second);
    AfterIsEnded(gaps, changes);
  }

  lemma LastIsEnded(text: string)
    requires text == "" || IsEnded(text)
    ensures AllEnded(SplitLines(text))
    decreases |text|
  {
    var k := FirstBreak(text);
    if text != "" {
      assert k < |text|;
      assert k + 1 < |text| ==> text[k + 1..][|text[k + 1..]| - 1] == '\n';
      LastIsEnded(text[k + 1..]);
    }
  }

  lemma {:induction false} AfterIsEnded(gaps: seq<Lines>, changes: seq<seq<HunkLine>>)
    requires |gaps| == |changes| + 1 && AllEnded(After(gaps, changes))
    ensures LinesEnded(changes)
    decreases |changes|
  {
    hide IsEnded, NewSide, LinesEnded;
    if changes == [] {
      NothingToEnd();
    } else {
      var side, rest := NewSide(changes[0]), After(gaps[1..], changes[1..]);
      var all := gaps[0] + side + rest;
      assert forall i :: 0 <= i < |side| ==> side[i] == all[|gaps[0]| + i];
      assert forall i :: 0 <= i < |rest| ==> rest[i] == all[|gaps[0]| + |side| + i];
      AfterIsEnded(gaps[1..], changes[1..]);
      LinesEndedFirst(changes);
    }
  }
}
