/** Hunk headers as they are written: the pattern of the applier reads back the starts of both ranges. */
module DiffHeaders {
  import opened Wrappers
  import opened Diff
  import opened DiffSplice

  function DigitChar(d: nat): char
    requires d < 10
  {
    '0' + d as char
  }

  function Decimal(n: nat): string {
    if n < 10 then [DigitChar(n)] else Decimal(n / 10) + [DigitChar(n % 10)]
  }

  lemma {:induction false} DecimalReads(n: nat)
    ensures Decimal(n) != "" && (forall i :: 0 <= i < |Decimal(n)| ==> IsDigit(Decimal(n)[i])) && Number(Decimal(n)) == n
  {
    if n < 10 {
      assert Decimal(n)[..0] == "";
      assert Number("") == 0;
      assert Digit(DigitChar(n)) == n;
    } else {
      DecimalReads(n / 10);
      assert Decimal(n)[..|Decimal(n)| - 1] == Decimal(n / 10);
      assert Digit(DigitChar(n % 10)) == n % 10;
    }
  }

  lemma {:induction false} DigitsEnd(digits: string, rest: string)
    requires (forall i :: 0 <= i < |digits| ==> IsDigit(digits[i])) && (rest == "" || !IsDigit(rest[0]))
    ensures DigitCount(digits + rest) == |digits|
  {
    if digits == "" {
      assert digits + rest == rest;
    } else {
      assert (digits + rest)[1..] == digits[1..] + rest;
      DigitsEnd(digits[1..], rest);
    }
  }

  /** A range of a header: `start,count`, or `start` alone when the count is one. */
  function RangeText(start: nat, count: nat): string {
    if count == 1 then Decimal(start) else Decimal(start) + "," + Decimal(count)
  }

  lemma RangeReads(start: nat, count: nat, rest: string)
    requires rest != "" && !IsDigit(rest[0]) && rest[0] != ','
    ensures ParseRange(RangeText(start, count) + rest) == Some(Range(start, rest))
  {
    hide *;
    DecimalReads(start);
    var tail := if count == 1 then rest else "," + (Decimal(count) + rest);
    var s := RangeText(start, count) + rest;
    assert s == Decimal(start) + tail by { RangeSplits(start, count, rest); }
    assert tail[0] == if count == 1 then rest[0] else ',';
    StartReads(Decimal(start), tail, s) by { assert !IsDigit(tail[0]) by { CommaIsNoDigit(); } }
    if count == 1 {
      NoCount(rest);
    } else {
      CountSkipped(count, rest);
    }
  }

  lemma RangeSplits(start: nat, count: nat, rest: string)
    ensures RangeText(start, count) + rest == Decimal(start) + if count == 1 then rest else "," + (Decimal(count) + rest)
  {
    hide Decimal;
  }

  lemma NoCount(rest: string)
    requires rest != "" && rest[0] != ','
    ensures SkipCount(rest) == rest
  {
  }

  lemma CommaIsNoDigit()
    ensures !IsDigit(',')
  {
  }

  lemma StartReads(digits: string, tail: string, s: string)
    requires s == digits + tail && digits != "" && (forall i :: 0 <= i < |digits| ==> IsDigit(digits[i])) && tail != "" && !IsDigit(tail[0])
    ensures ParseRange(s) == Some(Range(Number(digits), SkipCount(tail)))
  {
    hide IsDigit, Number, SkipCount, DigitCount;
    DigitsEnd(digits, tail);
    assert s[..|digits|] == digits && s[|digits|..] == tail;
  }

  lemma CountSkipped(count: nat, rest: string)
    requires rest == "" || !IsDigit(rest[0])
    ensures SkipCount("," + (Decimal(count) + rest)) == rest
  {
    hide Decimal, IsDigit, Number, DigitCount;
    DecimalReads(count);
    DigitsEnd(Decimal(count), rest);
    var tail := "," + (Decimal(count) + rest);
    assert tail[0] == ',' && "," <= tail;
    assert tail[1..] == Decimal(count) + rest;
    assert tail[1 + |Decimal(count)|..] == rest;
  }

  // --- the pattern -------------------------------------------------------------------------

  ghost predicate Digits(s: string) { s != "" && forall i :: 0 <= i < |s| ==> IsDigit(s[i]) }

  /** Nothing, or a comma and a count. */
  ghost predicate CountPart(s: string) { s == "" || (s[0] == ',' && Digits(s[1..])) }

  /** `@@ -start[,count] +start[,count] @@` and anything after it. */
  ghost predicate Shaped(line: string, a: string, ac: string, b: string, bc: string, rest: string) {
    && Digits(a) && CountPart(ac) && Digits(b) && CountPart(bc)
    && line == "@@ -" + (a + (ac + (" +" + (b + (bc + (" @@" + rest))))))
  }

  lemma RangeParses(digits: string, count: string, rest: string)
    requires Digits(digits) && CountPart(count) && rest != "" && rest[0] == ' '
    ensures ParseRange(digits + (count + rest)) == Some(Range(Number(digits), rest))
  {
    hide Number, DigitCount, ParseRange;
    SpaceAndComma();
    var tail := count + rest;
    StartReads(digits, tail, digits + tail);
    if count != "" {
      assert tail[1..] == count[1..] + rest && "," <= tail;
      DigitsEnd(count[1..], rest);
      assert tail[1 + |count[1..]|..] == rest;
    } else {
      assert tail == rest;
    }
  }

  lemma SpaceAndComma()
    ensures !IsDigit(' ') && !IsDigit(',')
  {
  }

  /** What is skipped as a count is one. */
  lemma SkippedIsCount(tail: string) returns (count: string)
    ensures CountPart(count) && tail == count + SkipCount(tail)
  {
    hide DigitCount, IsDigit;
    if "," <= tail && DigitCount(tail[1..]) > 0 {
      var k := DigitCount(tail[1..]);
      DigitsAre(tail[1..]);
      count := tail[..1 + k];
      assert count[1..] == tail[1..][..k] && count[0] == ',';
    } else {
      count := "";
    }
  }

  /** What is parsed as a range is one. */
  lemma RangeIsShaped(s: string) returns (digits: string, count: string)
    requires ParseRange(s).Some?
    ensures Digits(digits) && CountPart(count) && s == digits + (count + ParseRange(s).value.rest) && ParseRange(s).value.start == Number(digits)
  {
    hide Number, CountPart, SkipCount, DigitCount, IsDigit;
    var k := DigitCount(s);
    DigitsAre(s);
    digits := s[..k];
    count := SkippedIsCount(s[k..]);
    assert s == digits + s[k..];
  }

  /** The line has the shape of a header with these starts. */
  ghost predicate Names(line: string, oldStart: nat, newStart: nat) {
    exists a, ac, b, bc, rest :: Shaped(line, a, ac, b, bc, rest) && Number(a) == oldStart && Number(b) == newStart
  }

  /** The applier takes a line for a hunk header exactly if it has that shape, and reads the two starts. */
  lemma HeaderIffShaped(line: string, oldStart: nat, newStart: nat)
    ensures ParseHeader(line) == Some(Header(oldStart, newStart)) <==> Names(line, oldStart, newStart)
  {
    hide ParseHeader;
    if Names(line, oldStart, newStart) {
      var a, ac, b, bc, rest :| Shaped(line, a, ac, b, bc, rest) && Number(a) == oldStart && Number(b) == newStart;
      ShapedParses(line, a, ac, b, bc, rest);
    }
    if ParseHeader(line) == Some(Header(oldStart, newStart)) {
      ParsedIsShaped(line, oldStart, newStart);
    }
  }

  lemma ShapedParses(line: string, a: string, ac: string, b: string, bc: string, rest: string)
    requires Shaped(line, a, ac, b, bc, rest)
    ensures ParseHeader(line) == Some(Header(Number(a), Number(b)))
  {
    hide ParseRange, CountPart, Number, IsDigit;
    var last := " @@" + rest;
    var middle := " +" + (b + (bc + last));
    assert line[4..] == a + (ac + middle) && "@@ -" <= line;
    assert middle[0] == ' ' && last[0] == ' ';
    RangeParses(a, ac, middle);
    assert middle[2..] == b + (bc + last) && " +" <= middle;
    RangeParses(b, bc, last);
    assert " @@" <= last;
  }

  lemma ParsedIsShaped(line: string, oldStart: nat, newStart: nat)
    requires ParseHeader(line) == Some(Header(oldStart, newStart))
    ensures Names(line, oldStart, newStart)
  {
    hide ParseRange, CountPart, Number, IsDigit;
    var a, ac := RangeIsShaped(line[4..]);
    var middle := ParseRange(line[4..]).value.rest;
    var b, bc := RangeIsShaped(middle[2..]);
    var last := ParseRange(middle[2..]).value.rest;
    assert line == "@@ -" + line[4..] && middle == " +" + middle[2..] && last == " @@" + last[3..];
    assert Shaped(line, a, ac, b, bc, last[3..]);
  }

  function HeaderLine(oldStart: nat, oldCount: nat, newStart: nat, newCount: nat): string {
    "@@ -" + (RangeText(oldStart, oldCount) + (" +" + (RangeText(newStart, newCount) + " @@\n")))
  }

  lemma HeaderReads(oldStart: nat, oldCount: nat, newStart: nat, newCount: nat)
    ensures ParseHeader(HeaderLine(oldStart, oldCount, newStart, newCount)) == Some(Header(oldStart, newStart))
  {
    hide RangeText, ParseRange;
    var line := HeaderLine(oldStart, oldCount, newStart, newCount);
    var last := RangeText(newStart, newCount) + " @@\n";
    var rest := " +" + last;
    assert "@@ -" <= line && line[4..] == RangeText(oldStart, oldCount) + rest;
    assert rest[0] == ' ' && " @@\n"[0] == ' ';
    RangeReads(oldStart, oldCount, rest);
    assert " +" <= rest && rest[2..] == last;
    RangeReads(newStart, newCount, " @@\n");
    assert " @@" <= " @@\n" by { assert " @@\n"[..3] == " @@"; }
  }

  /**
   The header of a hunk that comes after `before` lines of the source and `after` lines of the
   result; the start of an empty range is the line before it, as the POSIX `diff` utility writes it.
   */
  function Written(before: nat, after: nat, lines: seq<HunkLine>): Hunk {
    var oldStart := before + if OldSide(lines) == [] then 0 else 1;
    var newStart := after + if NewSide(lines) == [] then 0 else 1;
    Hunk(HeaderLine(oldStart, |OldSide(lines)|, newStart, |NewSide(lines)|), Header(oldStart, newStart), lines)
  }

  /** The hunks a diff generator writes for changes separated by gaps. */
  function Write(gaps: seq<Lines>, changes: seq<seq<HunkLine>>, before: nat, after: nat): (hunks: seq<Hunk>)
    requires |gaps| == |changes| + 1
    ensures |hunks| == |changes|
    decreases |changes|
  {
    if changes == [] then []
    else
      var b, a := before + |gaps[0]|, after + |gaps[0]|;
      [Written(b, a, changes[0])] + Write(gaps[1..], changes[1..], b + |OldSide(changes[0])|, a + |NewSide(changes[0])|)
  }

  predicate NoEmptyOld(changes: seq<seq<HunkLine>>) {
    forall i :: 0 <= i < |changes| ==> OldSide(changes[i]) != []
  }

  predicate NoEmptyNew(changes: seq<seq<HunkLine>>) {
    forall i :: 0 <= i < |changes| ==> NewSide(changes[i]) != []
  }

  lemma {:induction false} WrittenIsHeaded(gaps: seq<Lines>, changes: seq<seq<HunkLine>>, before: nat, after: nat)
    requires |gaps| == |changes| + 1
    ensures Headed(Write(gaps, changes, before, after))
    decreases |changes|
  {
    hide HeaderLine, ParseHeader, OldSide, NewSide;
    if changes != [] {
      var b, a := before + |gaps[0]|, after + |gaps[0]|;
      var h := Written(b, a, changes[0]);
      HeaderReads(h.starts.oldStart, |OldSide(changes[0])|, h.starts.newStart, |NewSide(changes[0])|);
      WrittenIsHeaded(gaps[1..], changes[1..], b + |OldSide(changes[0])|, a + |NewSide(changes[0])|);
    }
  }

  lemma {:induction false} WrittenIsPlaced(gaps: seq<Lines>, changes: seq<seq<HunkLine>>, before: nat, after: nat)
    requires |gaps| == |changes| + 1 && NoEmptyOld(changes)
    ensures OldPlaced(gaps, Write(gaps, changes, before, after), before)
    decreases |changes|
  {
    hide HeaderLine, OldSide, NewSide;
    if changes != [] {
      var b, a := before + |gaps[0]|, after + |gaps[0]|;
      WrittenIsPlaced(gaps[1..], changes[1..], b + |OldSide(changes[0])|, a + |NewSide(changes[0])|);
    }
  }

  /** The two files that the gaps and changes describe. */
  function Before(gaps: seq<Lines>, changes: seq<seq<HunkLine>>): Lines
    requires |gaps| == |changes| + 1
  {
    if changes == [] then gaps[0] else gaps[0] + OldSide(changes[0]) + Before(gaps[1..], changes[1..])
  }

  function After(gaps: seq<Lines>, changes: seq<seq<HunkLine>>): Lines
    requires |gaps| == |changes| + 1
  {
    if changes == [] then gaps[0] else gaps[0] + NewSide(changes[0]) + After(gaps[1..], changes[1..])
  }

  lemma {:induction false} WovenIsFile(gaps: seq<Lines>, changes: seq<seq<HunkLine>>, before: nat, after: nat)
    requires |gaps| == |changes| + 1
    ensures var hunks := Write(gaps, changes, before, after);
            OldWeave(gaps, hunks) == Before(gaps, changes) && NewWeave(gaps, hunks) == After(gaps, changes)
    decreases |changes|
  {
    hide HeaderLine, OldSide, NewSide, ParseHeader, OldWeave, NewWeave;
    if changes != [] {
      var b, a := before + |gaps[0]|, after + |gaps[0]|;
      WovenIsFile(gaps[1..], changes[1..], b + |OldSide(changes[0])|, a + |NewSide(changes[0])|);
      var hunks := Write(gaps, changes, before, after);
      assert hunks[0].lines == changes[0];
      assert hunks[1..] == Write(gaps[1..], changes[1..], b + |OldSide(changes[0])|, a + |NewSide(changes[0])|);
      Unfold(gaps, hunks);
    } else {
      NoWeave(gaps, Write(gaps, changes, before, after));
    }
  }

  lemma NoWeave(gaps: seq<Lines>, hunks: seq<Hunk>)
    requires |gaps| == 1 && hunks == []
    ensures OldWeave(gaps, hunks) == gaps[0] == NewWeave(gaps, hunks)
  {
  }

  /** In an empty file there is nothing between the changes. */
  lemma {:induction false} FromNothing(gaps: seq<Lines>, changes: seq<seq<HunkLine>>, before: nat, after: nat)
    requires |gaps| == |changes| + 1 && Before(gaps, changes) == []
    ensures NewSides(Write(gaps, changes, before, after)) == After(gaps, changes)
    decreases |changes|
  {
    hide HeaderLine, OldSide, NewSide;
    if changes != [] {
      var b, a := before + |gaps[0]|, after + |gaps[0]|;
      var rest := Before(gaps[1..], changes[1..]);
      assert |gaps[0] + OldSide(changes[0]) + rest| == |gaps[0]| + |OldSide(changes[0])| + |rest|;
      FromNothing(gaps[1..], changes[1..], b + |OldSide(changes[0])|, a + |NewSide(changes[0])|);
      assert gaps[0] == [] && [] + NewSide(changes[0]) == NewSide(changes[0]);
    }
  }

  /** The changes can be placed by the applier: an old side that is empty is misplaced, except in an empty file. */
  predicate Placeable(gaps: seq<Lines>, changes: seq<seq<HunkLine>>)
    requires |gaps| == |changes| + 1
  {
    NoEmptyOld(changes) || Before(gaps, changes) == []
  }

  /** A diff between two files, written out with its headers, turns the first into the second. */
  lemma WrittenDiffApplies(pre: Lines, gaps: seq<Lines>, changes: seq<seq<HunkLine>>)
    requires Preamble(pre) && changes != [] && |gaps| == |changes| + 1 && Placeable(gaps, changes)
    ensures Apply(Before(gaps, changes), pre + Diffs(Write(gaps, changes, 0, 0))) == Some(After(gaps, changes))
  {
    hide Apply, Diffs, Write, OldPlaced, OldWeave, NewWeave, Before, After, ParseHeader, NoEmptyOld;
    WrittenIsHeaded(gaps, changes, 0, 0);
    if Before(gaps, changes) == [] {
      FromNothing(gaps, changes, 0, 0);
      AppliesToNothing(pre, Write(gaps, changes, 0, 0));
    } else {
      WrittenIsPlaced(gaps, changes, 0, 0);
      WovenIsFile(gaps, changes, 0, 0);
      AppliesAsSplice(pre, gaps, Write(gaps, changes, 0, 0));
    }
  }

  function FlipChanges(changes: seq<seq<HunkLine>>): (r: seq<seq<HunkLine>>)
    ensures |r| == |changes|
  {
    if changes == [] then [] else [FlipAll(changes[0])] + FlipChanges(changes[1..])
  }

  lemma {:induction false} FlippedFiles(gaps: seq<Lines>, changes: seq<seq<HunkLine>>)
    requires |gaps| == |changes| + 1
    ensures Before(gaps, FlipChanges(changes)) == After(gaps, changes) && After(gaps, FlipChanges(changes)) == Before(gaps, changes)
    ensures NoEmptyNew(changes) ==> NoEmptyOld(FlipChanges(changes))
    decreases |changes|
  {
    hide OldSide, NewSide, FlipAll;
    if changes != [] {
      FlipSwapsSides(changes[0]);
      FlippedFiles(gaps[1..], changes[1..]);
      assert NoEmptyNew(changes) ==> NoEmptyNew(changes[1..]);
    }
  }

  /** Round trip: the written diff takes the first file to the second, and the flipped one takes it back. */
  lemma WrittenDiffRoundTrips(pre: Lines, gaps: seq<Lines>, changes: seq<seq<HunkLine>>)
    requires Preamble(pre) && changes != [] && |gaps| == |changes| + 1
    requires Placeable(gaps, changes) && (NoEmptyNew(changes) || After(gaps, changes) == [])
    ensures var there := Apply(Before(gaps, changes), pre + Diffs(Write(gaps, changes, 0, 0)));
            there.Some? && Apply(there.value, pre + Diffs(Write(gaps, FlipChanges(changes), 0, 0))) == Some(Before(gaps, changes))
  {
    hide Apply, Diffs, Write, Before, After, FlipChanges, NoEmptyOld, NoEmptyNew;
    WrittenDiffApplies(pre, gaps, changes);
    FlippedFiles(gaps, changes);
    WrittenDiffApplies(pre, gaps, FlipChanges(changes)) by { assert |FlipChanges(changes)| == |changes|; }
  }

  // --- insertions as they are written ----------------------------------------------------------

  /** An inserted line lands one line early: after the first of two lines it comes before it. */
  lemma InsertedOneLineEarly()
    ensures var src, header := ["a\n", "b\n"], HeaderLine(1, 0, 2, 1);
            && ParseHeader(header) == Some(Header(1, 2))
            && Apply(src, Diffs([Hunk(header, Header(1, 2), Adds(["x\n"]))])) == Some(["x\n", "a\n", "b\n"])
  {
    hide *;
    var src, header := ["a\n", "b\n"], HeaderLine(1, 0, 2, 1);
    HeaderReads(1, 0, 2, 1);
    InsertionEffect(src, header, Header(1, 2), ["x\n"]);
    assert src[..0] + ["x\n"] + src[0..] == ["x\n", "a\n", "b\n"];
  }

  /** And at the beginning of the file it comes before the last line. */
  lemma InsertedBeforeTheLast()
    ensures var src, header := ["a\n", "b\n"], HeaderLine(0, 0, 1, 1);
            && ParseHeader(header) == Some(Header(0, 1))
            && Apply(src, Diffs([Hunk(header, Header(0, 1), Adds(["x\n"]))])) == Some(["a\n", "x\n", "b\n"])
  {
    hide *;
    var src, header := ["a\n", "b\n"], HeaderLine(0, 0, 1, 1);
    HeaderReads(0, 0, 1, 1);
    InsertionEffect(src, header, Header(0, 1), ["x\n"]);
    assert src[..1] + ["x\n"] + [src[1]] == ["a\n", "x\n", "b\n"];
  }
}
