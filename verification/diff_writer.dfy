/**
 The writer of diffs ends every line that it writes, also the last line of a file that has no
 terminator. Its diffs turn the first file into the second up to such terminators, and exactly
 when no line they keep or add lacks one.
 */
module DiffWriter {
  import opened Wrappers
  import opened Diff
  import opened DiffSplice
  import opened DiffHeaders

  predicate IsEnded(line: string) { line != "" && line[|line| - 1] == '\n' }

  function Ended(line: string): string { if IsEnded(line) then line else line + "\n" }

  function EndedAll(lines: Lines): Lines {
    if lines == [] then [] else [Ended(lines[0])] + EndedAll(lines[1..])
  }

  /** The line of a hunk that the applier reads where the writer was given `l`. */
  function Finish(l: HunkLine): HunkLine {
    match l
    case Keep(text, bare) => Keep(Ended(text), bare && text == "\n")
    case Delete(text) => Delete(Ended(text))
    case Add(text) => Add(Ended(text))
    case Note(text) => Note(Ended(text))
  }

  function FinishAll(lines: seq<HunkLine>): seq<HunkLine> {
    if lines == [] then [] else [Finish(lines[0])] + FinishAll(lines[1..])
  }

  function FinishChanges(changes: seq<seq<HunkLine>>): (r: seq<seq<HunkLine>>)
    ensures |r| == |changes|
  {
    if changes == [] then [] else [FinishAll(changes[0])] + FinishChanges(changes[1..])
  }

  function FinishHunks(hunks: seq<Hunk>): (r: seq<Hunk>)
    ensures |r| == |hunks|
  {
    if hunks == [] then []
    else [Hunk(Ended(hunks[0].header), hunks[0].starts, FinishAll(hunks[0].lines))] + FinishHunks(hunks[1..])
  }

  // --- one line, one hunk -------------------------------------------------------------

  lemma EndedBehind(c: string, text: string)
    requires |c| == 1 && c != "\n"
    ensures Ended(c + text) == c + Ended(text)
  {
    if text == "" {
      assert c + text == c;
    } else {
      assert (c + text)[|c + text| - 1] == text[|text| - 1];
    }
    assert c + text + "\n" == c + (text + "\n");
  }

  lemma TextOfFinished(l: HunkLine)
    ensures Text(Finish(l)) == Ended(Text(l))
  {
    EndedBehind(" ", l.text);
    EndedBehind("-", l.text);
    EndedBehind("+", l.text);
    EndedBehind("\\", l.text);
    assert Ended("\n") == "\n";
  }

  lemma {:induction false} EndedOfConcatenation(a: Lines, b: Lines)
    ensures EndedAll(a + b) == EndedAll(a) + EndedAll(b)
  {
    if a == [] {
      assert a + b == b;
    } else {
      assert (a + b)[1..] == a[1..] + b;
      EndedOfConcatenation(a[1..], b);
    }
  }

  lemma {:induction false} TextsOfFinished(lines: seq<HunkLine>)
    ensures Texts(FinishAll(lines)) == EndedAll(Texts(lines))
  {
    hide Text, Finish, Ended;
    if lines != [] {
      TextOfFinished(lines[0]);
      TextsOfFinished(lines[1..]);
    }
  }

  lemma {:induction false} SidesOfFinished(lines: seq<HunkLine>)
    ensures OldSide(FinishAll(lines)) == EndedAll(OldSide(lines)) && NewSide(FinishAll(lines)) == EndedAll(NewSide(lines))
  {
    hide Ended;
    if lines != [] {
      var gone := if lines[0].Keep? || lines[0].Delete? then [lines[0].text] else [];
      var kept := if lines[0].Keep? || lines[0].Add? then [lines[0].text] else [];
      SidesOfFinished(lines[1..]);
      OneEnded(lines[0].text);
      EndedOfConcatenation(gone, OldSide(lines[1..]));
      EndedOfConcatenation(kept, NewSide(lines[1..]));
    }
  }

  lemma OneEnded(line: string)
    ensures EndedAll([line]) == [Ended(line)]
  {
    hide Ended;
  }

  lemma {:induction false} EndedLength(lines: Lines)
    ensures |EndedAll(lines)| == |lines|
  {
    if lines != [] {
      EndedLength(lines[1..]);
    }
  }

  ghost predicate AllEnded(lines: Lines) {
    forall i :: 0 <= i < |lines| ==> IsEnded(lines[i])
  }

  lemma {:induction false} EndedAlready(lines: Lines)
    ensures EndedAll(lines) == lines <==> AllEnded(lines)
  {
    if lines != [] {
      EndedAlready(lines[1..]);
      assert EndedAll(lines)[0] == Ended(lines[0]) && EndedAll(lines)[1..] == EndedAll(lines[1..]);
      if forall i :: 0 <= i < |lines[1..]| ==> IsEnded(lines[1..][i]) {
        assert forall i :: 0 < i < |lines| ==> lines[i] == lines[1..][i - 1];
      } else {
        var i :| 0 <= i < |lines[1..]| && !IsEnded(lines[1..][i]);
        assert !IsEnded(lines[i + 1]);
      }
    }
  }

  // --- whole diffs ----------------------------------------------------------------------

  lemma {:induction false} DiffsOfFinished(hunks: seq<Hunk>)
    ensures EndedAll(Diffs(hunks)) == Diffs(FinishHunks(hunks))
  {
    hide Ended, Texts, FinishAll;
    if hunks != [] {
      var h := hunks[0];
      DiffsOfFinished(hunks[1..]);
      TextsOfFinished(h.lines);
      OneEnded(h.header);
      EndedOfConcatenation([h.header] + Texts(h.lines), Diffs(hunks[1..]));
      EndedOfConcatenation([h.header], Texts(h.lines));
    }
  }

  lemma HeadersAreEnded(oldStart: nat, oldCount: nat, newStart: nat, newCount: nat)
    ensures Ended(HeaderLine(oldStart, oldCount, newStart, newCount)) == HeaderLine(oldStart, oldCount, newStart, newCount)
  {
    hide RangeText;
    var line := HeaderLine(oldStart, oldCount, newStart, newCount);
    assert line == ("@@ -" + RangeText(oldStart, oldCount) + " +" + RangeText(newStart, newCount) + " @@") + "\n";
  }

  lemma {:induction false} ExtentFinished(changes: seq<seq<HunkLine>>)
    ensures forall i :: 0 <= i < |changes| ==> |OldSide(FinishChanges(changes)[i])| == |OldSide(changes[i])|
    ensures NoEmptyOld(changes) ==> NoEmptyOld(FinishChanges(changes))
  {
    hide OldSide, NewSide, FinishAll;
    if changes != [] {
      SidesOfFinished(changes[0]);
      EndedLength(OldSide(changes[0]));
      ExtentFinished(changes[1..]);
    }
  }

  lemma {:induction false} LinesOfWritten(gaps: seq<Lines>, changes: seq<seq<HunkLine>>, before: nat, after: nat)
    requires |gaps| == |changes| + 1
    ensures forall i :: 0 <= i < |changes| ==> Write(gaps, changes, before, after)[i].lines == changes[i]
    decreases |changes|
  {
    hide HeaderLine, OldSide, NewSide;
    if changes != [] {
      var b, a := before + |gaps[0]|, after + |gaps[0]|;
      LinesOfWritten(gaps[1..], changes[1..], b + |OldSide(changes[0])|, a + |NewSide(changes[0])|);
    }
  }

  lemma WrittenFinished(before: nat, after: nat, lines: seq<HunkLine>)
    ensures var h := Written(before, after, lines);
            Written(before, after, FinishAll(lines)) == Hunk(Ended(h.header), h.starts, FinishAll(lines))
    ensures |OldSide(FinishAll(lines))| == |OldSide(lines)| && |NewSide(FinishAll(lines))| == |NewSide(lines)|
  {
    hide HeaderLine, Ended, OldSide, NewSide, FinishAll;
    var h := Written(before, after, lines);
    SidesOfFinished(lines);
    EndedLength(OldSide(lines));
    EndedLength(NewSide(lines));
    HeadersAreEnded(h.starts.oldStart, |OldSide(lines)|, h.starts.newStart, |NewSide(lines)|);
  }

  /** Terminators do not move the hunks. */
  lemma {:induction false} WriteFinished(gaps: seq<Lines>, changes: seq<seq<HunkLine>>, before: nat, after: nat)
    requires |gaps| == |changes| + 1
    ensures Write(gaps, FinishChanges(changes), before, after) == FinishHunks(Write(gaps, changes, before, after))
    decreases |changes|
  {
    hide Written, Ended, OldSide, NewSide, FinishAll;
    if changes != [] {
      var b, a := before + |gaps[0]|, after + |gaps[0]|;
      WrittenFinished(b, a, changes[0]);
      KeepsLines(b, a, changes[0]);
      WriteFinished(gaps[1..], changes[1..], b + |OldSide(changes[0])|, a + |NewSide(changes[0])|);
      assert FinishChanges(changes)[1..] == FinishChanges(changes[1..]);
    }
  }

  lemma KeepsLines(before: nat, after: nat, lines: seq<HunkLine>)
    ensures Written(before, after, lines).lines == lines
  {
  }

  // --- what the applier makes of it ---------------------------------------------------------

  /** The second file, with a terminator on every line that the diff keeps or adds. */
  function Result(gaps: seq<Lines>, changes: seq<seq<HunkLine>>): Lines
    requires |gaps| == |changes| + 1
  {
    After(gaps, FinishChanges(changes))
  }

  lemma BeforeIsNothing(gaps: seq<Lines>, changes: seq<seq<HunkLine>>)
    requires |gaps| == |changes| + 1 && Before(gaps, changes) == []
    ensures Before(gaps, FinishChanges(changes)) == []
    decreases |changes|
  {
    hide OldSide, NewSide, FinishAll;
    if changes != [] {
      assert |gaps[0] + OldSide(changes[0]) + Before(gaps[1..], changes[1..])| == 0;
      SidesOfFinished(changes[0]);
      EndedLength(OldSide(changes[0]));
      BeforeIsNothing(gaps[1..], changes[1..]);
      assert FinishChanges(changes)[1..] == FinishChanges(changes[1..]);
    }
  }

  /** The diff as it is read back turns the first file into the second, with terminators. */
  lemma WriterApplies(pre: Lines, gaps: seq<Lines>, changes: seq<seq<HunkLine>>)
    requires Preamble(pre) && changes != [] && |gaps| == |changes| + 1 && Placeable(gaps, changes)
    ensures Apply(Before(gaps, changes), pre + EndedAll(Diffs(Write(gaps, changes, 0, 0)))) == Some(Result(gaps, changes))
  {
    hide Apply, Diffs, Write, OldPlaced, OldWeave, NewWeave, Before, After, ParseHeader, NoEmptyOld, FinishChanges, EndedAll, OldSide, Headed;
    var done := FinishChanges(changes);
    assert |done| == |changes| && done != [];
    WriteFinished(gaps, changes, 0, 0);
    ExtentFinished(changes);
    DiffsOfFinished(Write(gaps, changes, 0, 0));
    WrittenIsHeaded(gaps, done, 0, 0);
    if Before(gaps, changes) == [] {
      BeforeIsNothing(gaps, changes);
      FromNothing(gaps, done, 0, 0);
      AppliesToNothing(pre, Write(gaps, done, 0, 0));
    } else {
      WrittenIsPlaced(gaps, done, 0, 0);
      WovenIsFile(gaps, changes, 0, 0);
      WovenIsFile(gaps, done, 0, 0);
      LinesOfWritten(gaps, changes, 0, 0);
      LinesOfWritten(gaps, done, 0, 0);
      assert SameExtent(Write(gaps, changes, 0, 0), Write(gaps, done, 0, 0));
      AppliesByExtent(pre, gaps, Write(gaps, changes, 0, 0), Write(gaps, done, 0, 0));
    }
  }

  /** Every line that the diff keeps or adds has a terminator. */
  ghost predicate LinesEnded(changes: seq<seq<HunkLine>>) {
    forall i :: 0 <= i < |changes| ==> AllEnded(NewSide(changes[i]))
  }

  lemma LinesEndedFirst(changes: seq<seq<HunkLine>>)
    requires changes != []
    ensures LinesEnded(changes) <==> AllEnded(NewSide(changes[0])) && LinesEnded(changes[1..])
  {
    hide NewSide, AllEnded;
    if AllEnded(NewSide(changes[0])) && LinesEnded(changes[1..]) {
      forall i | 0 <= i < |changes|
        ensures AllEnded(NewSide(changes[i]))
      {
        assert i > 0 ==> changes[1..][i - 1] == changes[i];
      }
    }
  }

  lemma SplitSame(a: Lines, x: Lines, y: Lines, r: Lines, t: Lines)
    requires |x| == |y|
    ensures a + x + r == a + y + t <==> x == y && r == t
  {
    if a + x + r == a + y + t {
      assert (a + x + r)[|a|..|a| + |x|] == x && (a + y + t)[|a|..|a| + |x|] == y;
      assert (a + x + r)[|a| + |x|..] == r && (a + y + t)[|a| + |x|..] == t;
    }
  }

  lemma {:induction false} ResultIsAfter(gaps: seq<Lines>, changes: seq<seq<HunkLine>>)
    requires |gaps| == |changes| + 1
    ensures Result(gaps, changes) == After(gaps, changes) <==> LinesEnded(changes)
    decreases |changes|
  {
    hide NewSide, OldSide, AllEnded, FinishAll, LinesEnded;
    if changes == [] {
      NothingToEnd();
    } else {
      var side := NewSide(changes[0]);
      SidesOfFinished(changes[0]);
      EndedLength(side);
      EndedAlready(side);
      LinesEndedFirst(changes);
      assert FinishChanges(changes)[1..] == FinishChanges(changes[1..]);
      ResultIsAfter(gaps[1..], changes[1..]);
      SplitSame(gaps[0], EndedAll(side), side, Result(gaps[1..], changes[1..]), After(gaps[1..], changes[1..]));
    }
  }

  lemma NothingToEnd()
    ensures LinesEnded([])
  {
  }

  /** The written diff, as it is read back, turns the first file into the second exactly when every line it keeps or adds has a terminator. */
  lemma WriterIsExact(pre: Lines, gaps: seq<Lines>, changes: seq<seq<HunkLine>>)
    requires Preamble(pre) && changes != [] && |gaps| == |changes| + 1 && Placeable(gaps, changes)
    ensures Apply(Before(gaps, changes), pre + EndedAll(Diffs(Write(gaps, changes, 0, 0)))) == Some(After(gaps, changes))
       <==> LinesEnded(changes)
  {
    hide Apply, Diffs, Write, Before, After, Result, EndedAll, LinesEnded, Preamble, Placeable;
    WriterApplies(pre, gaps, changes);
    ResultIsAfter(gaps, changes);
  }

  /** A last line without a terminator that the diff keeps is given one. */
  lemma TerminatorAdded()
    ensures var gaps, changes: seq<seq<HunkLine>> := [[], []], [[Delete("a\n"), Add("b\n"), Keep("end", false)]];
            && Before(gaps, changes) == ["a\n", "end"] && After(gaps, changes) == ["b\n", "end"]
            && Apply(["a\n", "end"], EndedAll(Diffs(Write(gaps, changes, 0, 0)))) == Some(["b\n", "end\n"])
  {
    hide Apply, Diffs, Write, HeaderLine, Ended, Before, After;
    var lines := [Delete("a\n"), Add("b\n"), Keep("end", false)];
    var gaps, changes: seq<seq<HunkLine>> := [[], []], [lines];
    ThreeLines(lines);
    assert FinishChanges(changes) == [FinishAll(lines)];
    OneChange(gaps, lines);
    OneChange(gaps, FinishAll(lines));
    WriterApplies([], gaps, changes);
    assert [] + EndedAll(Diffs(Write(gaps, changes, 0, 0))) == EndedAll(Diffs(Write(gaps, changes, 0, 0)));
  }

  lemma ThreeLines(lines: seq<HunkLine>)
    requires lines == [Delete("a\n"), Add("b\n"), Keep("end", false)]
    ensures OldSide(lines) == ["a\n", "end"] && NewSide(lines) == ["b\n", "end"] && NewSide(FinishAll(lines)) == ["b\n", "end\n"]
  {
    hide Ended;
    var two, one := lines[1..], lines[2..];
    assert two[1..] == one && one[1..] == [];
    assert OldSide(one) == ["end"] && NewSide(one) == ["end"];
    assert OldSide(two) == ["end"] && NewSide(two) == ["b\n", "end"];
    SidesOfFinished(lines);
    var side := ["b\n", "end"];
    assert side[1..] == ["end"] && side[1..][1..] == [];
    assert Ended("b\n") == "b\n" && Ended("end") == "end\n" by { EndedBoth(); }
  }

  lemma EndedBoth()
    ensures Ended("b\n") == "b\n" && Ended("end") == "end\n"
  {
  }

  lemma OneChange(gaps: seq<Lines>, lines: seq<HunkLine>)
    requires gaps == [[], []]
    ensures Before(gaps, [lines]) == OldSide(lines) && After(gaps, [lines]) == NewSide(lines)
  {
    hide OldSide, NewSide;
    assert Before(gaps[1..], [lines][1..]) == [] && After(gaps[1..], [lines][1..]) == [];
    assert [] + OldSide(lines) + [] == OldSide(lines);
    assert [] + NewSide(lines) + [] == NewSide(lines);
  }
}
