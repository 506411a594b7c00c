/**
 What applying a diff means: the source is a weave of gaps and the hunks' old sides, and the
 result is the same weave with the new sides. Reversing a diff undoes it; a hunk with an empty
 old side is misplaced.
 */
module DiffSplice {
  import opened Wrappers
  import opened Diff

  type Lines = seq<string>

  /**
   A kept blank line may be written bare, without the space in front. A `Note` is a line the
   applier ignores, such as the marker for a missing final newline.
   */
  datatype HunkLine = Keep(text: string, bare: bool) | Delete(text: string) | Add(text: string) | Note(text: string)

  /** A header line, the starts it names, and the lines that follow it. */
  datatype Hunk = Hunk(header: string, starts: Header, lines: seq<HunkLine>)

  function Text(l: HunkLine): string {
    match l
    case Keep(text, bare) => if bare && text == "\n" then "\n" else " " + text
    case Delete(text) => "-" + text
    case Add(text) => "+" + text
    case Note(text) => "\\" + text
  }

  function Texts(lines: seq<HunkLine>): Lines {
    if lines == [] then [] else [Text(lines[0])] + Texts(lines[1..])
  }

  function OldSide(lines: seq<HunkLine>): Lines {
    if lines == [] then []
    else (if lines[0].Keep? || lines[0].Delete? then [lines[0].text] else []) + OldSide(lines[1..])
  }

  function NewSide(lines: seq<HunkLine>): Lines {
    if lines == [] then []
    else (if lines[0].Keep? || lines[0].Add? then [lines[0].text] else []) + NewSide(lines[1..])
  }

  function Diffs(hunks: seq<Hunk>): Lines {
    if hunks == [] then [] else [hunks[0].header] + Texts(hunks[0].lines) + Diffs(hunks[1..])
  }

  predicate Headed(hunks: seq<Hunk>) {
    forall i :: 0 <= i < |hunks| ==> ParseHeader(hunks[i].header) == Some(hunks[i].starts)
  }

  /** Lines before the first hunk, such as the file names. */
  predicate Preamble(lines: Lines) {
    forall i :: 0 <= i < |lines| ==> ParseHeader(lines[i]).None?
  }

  // --- weaves ----------------------------------------------------------------------

  function OldWeave(gaps: seq<Lines>, hunks: seq<Hunk>): Lines
    requires |gaps| == |hunks| + 1
  {
    if hunks == [] then gaps[0] else gaps[0] + OldSide(hunks[0].lines) + OldWeave(gaps[1..], hunks[1..])
  }

  function NewWeave(gaps: seq<Lines>, hunks: seq<Hunk>): Lines
    requires |gaps| == |hunks| + 1
  {
    if hunks == [] then gaps[0] else gaps[0] + NewSide(hunks[0].lines) + NewWeave(gaps[1..], hunks[1..])
  }

  /** Every header names the line, counted from 1, at which its old side starts; `at` lines come before. */
  predicate OldPlaced(gaps: seq<Lines>, hunks: seq<Hunk>, at: nat)
    requires |gaps| == |hunks| + 1
  {
    hunks != [] ==>
      && hunks[0].starts.oldStart == at + |gaps[0]| + 1
      && OldPlaced(gaps[1..], hunks[1..], at + |gaps[0]| + |OldSide(hunks[0].lines)|)
  }

  predicate NewPlaced(gaps: seq<Lines>, hunks: seq<Hunk>, at: nat)
    requires |gaps| == |hunks| + 1
  {
    hunks != [] ==>
      && hunks[0].starts.newStart == at + |gaps[0]| + 1
      && NewPlaced(gaps[1..], hunks[1..], at + |gaps[0]| + |NewSide(hunks[0].lines)|)
  }

  // --- the splice theorem -------------------------------------------------------------

  lemma TextEffect(l: HunkLine)
    ensures !("@@" <= Text(l))
    ensures Output(Text(l)) == if l.Keep? || l.Add? then [l.text] else []
    ensures Consumes(Text(l)) <==> l.Keep? || l.Delete?
  {
    if l.Keep? && !(l.bare && l.text == "\n") {
      assert Text(l)[0] == ' ' && Text(l)[1..] == l.text;
    } else if l.Keep? {
      assert Text(l) == "\n";
      assert Text(l)[0] == '\n';
    } else if l.Delete? {
      assert Text(l)[0] == '-';
    } else if l.Add? {
      assert Text(l)[0] == '+' && Text(l)[1..] == l.text;
    } else {
      assert Text(l)[0] == '\\';
    }
  }

  lemma Peel(body: Lines, i: nat, line: string, rest: Lines)
    requires i <= |body| && body[i..] == [line] + rest
    ensures i < |body| && body[i] == line && body[i + 1..] == rest
  {
    assert body[i] == body[i..][0];
    assert body[i + 1..] == body[i..][1..];
  }

  lemma PeelAll(body: Lines, i: nat, front: Lines, rest: Lines)
    requires i <= |body| && body[i..] == front + rest
    ensures i + |front| <= |body| && body[i + |front|..] == rest
  {
    assert body[i + |front|..] == body[i..][|front|..];
  }

  lemma Associates(a: Lines, b: Lines, d: Lines)
    ensures a + b + d == a + (b + d)
  {
  }

  lemma Regroup(a: Lines, b: Lines, d: Lines, e: Lines)
    ensures a + b + d + e == a + (b + d + e)
  {
  }

  /** The inner loop emits the new side and passes over the old side. */
  lemma {:induction false} InnerLoop(src: Lines, body: Lines, i: nat, lines: seq<HunkLine>, rest: Lines, out: Lines, cursor: int)
    requires i <= |body| && body[i..] == Texts(lines) + rest
    requires rest == [] || "@@" <= rest[0]
    ensures i + |Texts(lines)| <= |body|
    ensures InHunk(src, body, i, out, cursor)
         == Scan(src, body, i + |Texts(lines)|, out + NewSide(lines), cursor + |OldSide(lines)|)
    decreases |lines|
  {
    hide Scan, Text, Output, Consumes;
    if lines == [] {
      assert body[i..] == rest;
      assert out + [] == out;
      if i < |body| {
        assert body[i] == rest[0];
      }
    } else {
      hide Texts;
      TextsFirst(lines);
      TextEffect(lines[0]);
      Associates([Text(lines[0])], Texts(lines[1..]), rest);
      Peel(body, i, Text(lines[0]), Texts(lines[1..]) + rest);
      InnerLoop(src, body, i + 1, lines[1..], rest, out + Output(body[i]), cursor + if Consumes(body[i]) then 1 else 0);
      Associates(out, Output(body[i]), NewSide(lines[1..]));
    }
  }

  lemma TextsFirst(lines: seq<HunkLine>)
    requires lines != []
    ensures Texts(lines) == [Text(lines[0])] + Texts(lines[1..])
  {
  }

  lemma HeaderBegins(line: string)
    ensures ParseHeader(line).Some? ==> "@@" <= line
  {
    hide ParseRange;
    if ParseHeader(line).Some? {
      assert "@@ -" <= line;
      assert "@@ -"[..2] == "@@";
    }
  }

  lemma {:induction false} SkipPreamble(src: Lines, body: Lines, i: nat, pre: Lines, out: Lines, cursor: int)
    requires i <= |body| && pre <= body[i..] && Preamble(pre)
    ensures i + |pre| <= |body| && Scan(src, body, i, out, cursor) == Scan(src, body, i + |pre|, out, cursor)
    decreases |pre|
  {
    hide ParseHeader, InHunk, Slice, SliceFrom;
    if pre != [] {
      assert body[i..] == [pre[0]] + body[i..][1..];
      Peel(body, i, pre[0], body[i..][1..]);
      SkipPreamble(src, body, i + 1, pre[1..], out, cursor);
    }
  }

  lemma SlicesOfWeave(src: Lines, at: nat, gap: Lines, rest: Lines)
    requires at <= |src| && src[at..] == gap + rest
    ensures Slice(src, at, at + |gap|) == gap && SliceFrom(src, at) == gap + rest
  {
    assert src[at..at + |gap|] == src[at..][..|gap|];
  }

  lemma Unfold(gaps: seq<Lines>, hunks: seq<Hunk>)
    requires |gaps| == |hunks| + 1 && hunks != []
    ensures OldWeave(gaps, hunks) == gaps[0] + OldSide(hunks[0].lines) + OldWeave(gaps[1..], hunks[1..])
    ensures NewWeave(gaps, hunks) == gaps[0] + NewSide(hunks[0].lines) + NewWeave(gaps[1..], hunks[1..])
  {
    hide OldSide, NewSide;
  }

  lemma UnfoldPlaced(gaps: seq<Lines>, hunks: seq<Hunk>, at: nat)
    requires |gaps| == |hunks| + 1 && hunks != [] && Headed(hunks)
    ensures OldPlaced(gaps, hunks, at) <==>
      && hunks[0].starts.oldStart == at + |gaps[0]| + 1
      && OldPlaced(gaps[1..], hunks[1..], at + |gaps[0]| + |OldSide(hunks[0].lines)|)
    ensures ParseHeader(hunks[0].header) == Some(hunks[0].starts) && Headed(hunks[1..])
    ensures Diffs(hunks) == [hunks[0].header] + Texts(hunks[0].lines) + Diffs(hunks[1..])
  {
    hide OldSide, ParseHeader, Texts;
  }

  lemma ScanHeader(src: Lines, body: Lines, i: nat, out: Lines, cursor: int, starts: Header)
    requires i < |body| && ParseHeader(body[i]) == Some(starts)
    ensures Scan(src, body, i, out, cursor)
         == InHunk(src, body, i + 1, out + Slice(src, cursor, starts.oldStart - 1), starts.oldStart - 1)
  {
    hide ParseHeader, InHunk, Slice, SliceFrom;
  }

  lemma NextBegins(hunks: seq<Hunk>)
    requires Headed(hunks)
    ensures Diffs(hunks) == [] || "@@" <= Diffs(hunks)[0]
  {
    hide ParseHeader, Texts;
    if hunks != [] {
      HeaderBegins(hunks[0].header);
    }
  }

  /** One hunk: the gap is copied, as many lines as the old side has are passed over, and the new side is written. */
  lemma OneRound(src: Lines, body: Lines, i: nat, gap: Lines, was: Lines, h: Hunk, after: Lines, rest: Lines, out: Lines, at: nat)
    requires ParseHeader(h.header) == Some(h.starts) && h.starts.oldStart == at + |gap| + 1 && |was| == |OldSide(h.lines)|
    requires i <= |body| && body[i..] == [h.header] + Texts(h.lines) + after && (after == [] || "@@" <= after[0])
    requires at <= |src| && src[at..] == gap + was + rest
    ensures var j, next := i + 1 + |Texts(h.lines)|, at + |gap| + |was|;
            && j <= |body| && body[j..] == after && next <= |src| && src[next..] == rest
            && Scan(src, body, i, out, at) == Scan(src, body, j, out + gap + NewSide(h.lines), next)
  {
    hide ParseHeader, Scan, InHunk, Slice, SliceFrom, Texts, OldSide, NewSide;
    var lines := Texts(h.lines);
    Associates([h.header], lines, after);
    Peel(body, i, h.header, lines + after);
    Associates(gap, was, rest);
    SlicesOfWeave(src, at, gap, was + rest);
    ScanHeader(src, body, i, out, at, h.starts);
    InnerLoop(src, body, i + 1, h.lines, after, out + gap, at + |gap|);
    PeelAll(body, i + 1, lines, after);
    PeelAll(src, at, gap + was, rest);
  }

  /** Hunks that differ in their lines but not in how many lines their old sides have. */
  ghost predicate SameExtent(was: seq<Hunk>, hunks: seq<Hunk>) {
    |was| == |hunks| && forall i :: 0 <= i < |hunks| ==> |OldSide(was[i].lines)| == |OldSide(hunks[i].lines)|
  }

  /** The outer loop, from a hunk on: the weave of old sides becomes the weave of new sides. */
  lemma {:induction false} OuterLoop(src: Lines, body: Lines, i: nat, gaps: seq<Lines>, was: seq<Hunk>, hunks: seq<Hunk>, out: Lines, at: nat)
    requires |gaps| == |hunks| + 1 && Headed(hunks) && OldPlaced(gaps, hunks, at) && SameExtent(was, hunks)
    requires i <= |body| && body[i..] == Diffs(hunks)
    requires at <= |src| && src[at..] == OldWeave(gaps, was)
    ensures Scan(src, body, i, out, at) == out + NewWeave(gaps, hunks)
    decreases |hunks|
  {
    hide *;
    assert |was| == |hunks| by { FirstExtent(was, hunks); }
    if hunks == [] {
      NoHunks(src, body, i, gaps, out, at);
    } else {
      var h, gap := hunks[0], gaps[0];
      Unfold(gaps, hunks);
      Unfold(gaps, was);
      UnfoldPlaced(gaps, hunks, at);
      FirstExtent(was, hunks);
      NextBegins(hunks[1..]);
      OneRound(src, body, i, gap, OldSide(was[0].lines), h, Diffs(hunks[1..]), OldWeave(gaps[1..], was[1..]), out, at);
      OuterLoop(src, body, i + 1 + |Texts(h.lines)|, gaps[1..], was[1..], hunks[1..], out + gap + NewSide(h.lines), at + |gap| + |OldSide(h.lines)|);
      Regroup(out, gap, NewSide(h.lines), NewWeave(gaps[1..], hunks[1..]));
    }
  }

  lemma FirstExtent(was: seq<Hunk>, hunks: seq<Hunk>)
    requires SameExtent(was, hunks)
    ensures |was| == |hunks|
    ensures hunks != [] ==> |OldSide(was[0].lines)| == |OldSide(hunks[0].lines)| && SameExtent(was[1..], hunks[1..])
  {
    hide OldSide;
  }

  lemma NoHunks(src: Lines, body: Lines, i: nat, gaps: seq<Lines>, out: Lines, at: nat)
    requires |gaps| == 1 && i <= |body| && body[i..] == Diffs([])
    requires at <= |src| && src[at..] == OldWeave(gaps, [])
    ensures Scan(src, body, i, out, at) == out + NewWeave(gaps, [])
  {
    hide ParseHeader, InHunk;
    assert i == |body|;
  }

  lemma AnyHeader(pre: Lines, hunks: seq<Hunk>)
    requires Headed(hunks) && hunks != []
    ensures HasHeader(pre + Diffs(hunks))
  {
    assert (pre + Diffs(hunks))[|pre|] == hunks[0].header;
  }

  /** Without any header there is no result, and only then. */
  lemma NoResultWithoutHeader(src: Lines, body: Lines)
    ensures Apply(src, body) == None <==> Preamble(body)
  {
    hide ParseHeader, Scan;
  }

  /** The applier counts the lines of an old side and does not compare them with the source. */
  lemma AppliesByExtent(pre: Lines, gaps: seq<Lines>, was: seq<Hunk>, hunks: seq<Hunk>)
    requires Preamble(pre) && hunks != [] && |gaps| == |hunks| + 1 && Headed(hunks) && OldPlaced(gaps, hunks, 0) && SameExtent(was, hunks)
    ensures Apply(OldWeave(gaps, was), pre + Diffs(hunks)) == Some(NewWeave(gaps, hunks))
  {
    hide Scan, Diffs, OldWeave, NewWeave, OldPlaced, ParseHeader;
    var src, body := OldWeave(gaps, was), pre + Diffs(hunks);
    AnyHeader(pre, hunks);
    SkipPreamble(src, body, 0, pre, [], 0) by { assert body[0..] == body; }
    OuterLoop(src, body, |pre|, gaps, was, hunks, [], 0) by {
      assert body[|pre|..] == Diffs(hunks);
      assert src[0..] == src;
    }
    assert [] + NewWeave(gaps, hunks) == NewWeave(gaps, hunks);
  }

  /** Applying a diff whose headers place its hunks replaces every old side by its new side and nothing else. */
  lemma AppliesAsSplice(pre: Lines, gaps: seq<Lines>, hunks: seq<Hunk>)
    requires Preamble(pre) && hunks != [] && |gaps| == |hunks| + 1 && Headed(hunks) && OldPlaced(gaps, hunks, 0)
    ensures Apply(OldWeave(gaps, hunks), pre + Diffs(hunks)) == Some(NewWeave(gaps, hunks))
  {
    hide Apply, Diffs, OldWeave, NewWeave, OldPlaced, ParseHeader;
    AppliesByExtent(pre, gaps, hunks, hunks);
  }

  // --- an empty source -----------------------------------------------------------------------

  function NewSides(hunks: seq<Hunk>): Lines {
    if hunks == [] then [] else NewSide(hunks[0].lines) + NewSides(hunks[1..])
  }

  /** The outer loop on an empty source, wherever the headers place the hunks. */
  lemma {:induction false} EmptyLoop(body: Lines, i: nat, hunks: seq<Hunk>, out: Lines, cursor: int)
    requires Headed(hunks) && i <= |body| && body[i..] == Diffs(hunks)
    ensures Scan([], body, i, out, cursor) == out + NewSides(hunks)
    decreases |hunks|
  {
    hide ParseHeader, Scan, InHunk, Texts, OldSide, NewSide;
    if hunks == [] {
      assert i == |body|;
      NothingLeft(body, i, out, cursor);
    } else {
      var h := hunks[0];
      var start, lines, after := h.starts.oldStart - 1, Texts(h.lines), Diffs(hunks[1..]);
      Associates([h.header], lines, after);
      Peel(body, i, h.header, lines + after);
      NextBegins(hunks[1..]);
      ScanHeader([], body, i, out, cursor, h.starts);
      assert out + Slice<string>([], cursor, start) == out;
      InnerLoop([], body, i + 1, h.lines, after, out, start);
      PeelAll(body, i + 1, lines, after);
      EmptyLoop(body, i + 1 + |lines|, hunks[1..], out + NewSide(h.lines), start + |OldSide(h.lines)|);
      Associates(out, NewSide(h.lines), NewSides(hunks[1..]));
    }
  }

  lemma NothingLeft(body: Lines, i: nat, out: Lines, cursor: int)
    requires i == |body|
    ensures Scan([], body, i, out, cursor) == out + NewSides([])
  {
  }

  /** To an empty source every diff appends its new sides. */
  lemma AppliesToNothing(pre: Lines, hunks: seq<Hunk>)
    requires Preamble(pre) && hunks != [] && Headed(hunks)
    ensures Apply([], pre + Diffs(hunks)) == Some(NewSides(hunks))
  {
    hide Scan, Diffs, ParseHeader, NewSides;
    var body := pre + Diffs(hunks);
    AnyHeader(pre, hunks);
    SkipPreamble([], body, 0, pre, [], 0) by { assert body[0..] == body; }
    EmptyLoop(body, |pre|, hunks, [], 0) by { assert body[|pre|..] == Diffs(hunks); }
    assert [] + NewSides(hunks) == NewSides(hunks);
  }

  // --- hunks that are ordered, do not overlap and match the source ------------------------

  /** Each old side lies in the source where its header says, after the previous one. */
  predicate Matches(src: Lines, hunks: seq<Hunk>, at: nat) {
    if hunks == [] then at <= |src|
    else
      var p, was := hunks[0].starts.oldStart - 1, OldSide(hunks[0].lines);
      at <= p && p + |was| <= |src| && src[p..p + |was|] == was && Matches(src, hunks[1..], p + |was|)
  }

  function Gaps(src: Lines, hunks: seq<Hunk>, at: nat): (gaps: seq<Lines>)
    requires Matches(src, hunks, at)
    ensures |gaps| == |hunks| + 1
  {
    if hunks == [] then [src[at..]]
    else
      var p, was := hunks[0].starts.oldStart - 1, OldSide(hunks[0].lines);
      [src[at..p]] + Gaps(src, hunks[1..], p + |was|)
  }

  lemma {:induction false} GapsFit(src: Lines, hunks: seq<Hunk>, at: nat)
    requires Matches(src, hunks, at)
    ensures at <= |src| && OldPlaced(Gaps(src, hunks, at), hunks, at) && OldWeave(Gaps(src, hunks, at), hunks) == src[at..]
    decreases |hunks|
  {
    hide ParseHeader, OldSide, OldWeave;
    if hunks != [] {
      var p, was := hunks[0].starts.oldStart - 1, OldSide(hunks[0].lines);
      GapsFit(src, hunks[1..], p + |was|);
      Unfold(Gaps(src, hunks, at), hunks);
      assert Gaps(src, hunks, at)[1..] == Gaps(src, hunks[1..], p + |was|);
      assert src[at..] == src[at..p] + src[p..p + |was|] + src[p + |was|..];
    } else {
      LastGap(src, hunks, at);
    }
  }

  lemma LastGap(src: Lines, hunks: seq<Hunk>, at: nat)
    requires hunks == [] && Matches(src, hunks, at)
    ensures OldWeave(Gaps(src, hunks, at), hunks) == src[at..]
  {
  }

  /**
   The splice theorem for a source: with ordered hunks that do not overlap and match it, the
   result is the source with each old side replaced by the new side.
   */
  lemma SplicesSource(src: Lines, pre: Lines, hunks: seq<Hunk>)
    requires Preamble(pre) && hunks != [] && Headed(hunks) && Matches(src, hunks, 0)
    ensures OldWeave(Gaps(src, hunks, 0), hunks) == src
    ensures Apply(src, pre + Diffs(hunks)) == Some(NewWeave(Gaps(src, hunks, 0), hunks))
  {
    hide Apply, Diffs, OldPlaced, ParseHeader, Matches, Gaps, OldWeave, NewWeave;
    GapsFit(src, hunks, 0);
    assert src[0..] == src;
    AppliesAsSplice(pre, Gaps(src, hunks, 0), hunks);
  }

  // --- reversal ----------------------------------------------------------------------------

  function Flip(l: HunkLine): HunkLine {
    match l
    case Delete(text) => Add(text)
    case Add(text) => Delete(text)
    case _ => l
  }

  function FlipAll(lines: seq<HunkLine>): seq<HunkLine> {
    if lines == [] then [] else [Flip(lines[0])] + FlipAll(lines[1..])
  }

  lemma {:induction false} FlipSwapsSides(lines: seq<HunkLine>)
    ensures OldSide(FlipAll(lines)) == NewSide(lines) && NewSide(FlipAll(lines)) == OldSide(lines)
  {
    if lines != [] {
      FlipSwapsSides(lines[1..]);
      assert FlipAll(lines)[1..] == FlipAll(lines[1..]);
    }
  }

  /** The same hunk seen from the other side: lines flipped, starts exchanged. */
  predicate Reverses(g: Hunk, h: Hunk) {
    && g.lines == FlipAll(h.lines)
    && g.starts == Header(h.starts.newStart, h.starts.oldStart) && ParseHeader(g.header) == Some(g.starts)
  }

  lemma {:induction false} ReversedWeave(gaps: seq<Lines>, hunks: seq<Hunk>, back: seq<Hunk>, at: nat)
    requires |gaps| == |hunks| + 1 && |back| == |hunks| && Headed(hunks) && NewPlaced(gaps, hunks, at)
    requires forall i :: 0 <= i < |hunks| ==> Reverses(back[i], hunks[i])
    ensures Headed(back) && OldPlaced(gaps, back, at)
    ensures OldWeave(gaps, back) == NewWeave(gaps, hunks) && NewWeave(gaps, back) == OldWeave(gaps, hunks)
    decreases |hunks|
  {
    hide ParseHeader;
    if hunks != [] {
      FlipSwapsSides(hunks[0].lines);
      assert Reverses(back[0], hunks[0]);
      forall i | 0 <= i < |hunks[1..]|
        ensures Reverses(back[1..][i], hunks[1..][i])
      {
        assert Reverses(back[i + 1], hunks[i + 1]);
      }
      ReversedWeave(gaps[1..], hunks[1..], back[1..], at + |gaps[0]| + |NewSide(hunks[0].lines)|);
    }
  }

  /** Applying the reversed diff to the result gives the source back. */
  lemma ReverseUndoes(src: Lines, pre: Lines, hunks: seq<Hunk>, pre': Lines, back: seq<Hunk>)
    requires Preamble(pre) && Preamble(pre') && hunks != [] && Headed(hunks) && Matches(src, hunks, 0)
    requires NewPlaced(Gaps(src, hunks, 0), hunks, 0)
    requires |back| == |hunks| && forall i :: 0 <= i < |hunks| ==> Reverses(back[i], hunks[i])
    ensures Headed(back)
    ensures var result := Apply(src, pre + Diffs(hunks));
            result.Some? && Apply(result.value, pre' + Diffs(back)) == Some(src)
  {
    hide Apply, Diffs, OldPlaced, NewPlaced, ParseHeader, Matches, Gaps, OldWeave, NewWeave, Reverses;
    var gaps := Gaps(src, hunks, 0);
    SplicesSource(src, pre, hunks);
    ReversedWeave(gaps, hunks, back, 0);
    AppliesAsSplice(pre', gaps, back);
  }

  // --- empty old sides ------------------------------------------------------------------------

  function Adds(texts: Lines): seq<HunkLine> {
    if texts == [] then [] else [Add(texts[0])] + Adds(texts[1..])
  }

  lemma {:induction false} AddsSides(texts: Lines)
    ensures OldSide(Adds(texts)) == [] && NewSide(Adds(texts)) == texts
  {
    if texts != [] {
      AddsSides(texts[1..]);
      assert Adds(texts)[1..] == Adds(texts[1..]);
    }
  }

  /** What a hunk that only inserts does: its header names the line before the insertion. */
  lemma InsertionEffect(src: Lines, header: string, starts: Header, texts: Lines)
    requires ParseHeader(header) == Some(starts) && starts.oldStart <= |src|
    ensures var p := starts.oldStart;
            Apply(src, Diffs([Hunk(header, starts, Adds(texts))])) ==
              if p > 0 then Some(src[..p - 1] + texts + src[p - 1..])
              else if src == [] then Some(texts)
              else Some(src[..|src| - 1] + texts + [src[|src| - 1]])
  {
    hide ParseHeader, Scan, InHunk, Slice, SliceFrom, Diffs, Adds, HasHeader;
    var hunks := [Hunk(header, starts, Adds(texts))];
    var body := Diffs(hunks);
    AnyHeader([], hunks);
    assert [] + body == body;
    InsertionScan(src, header, starts, texts);
    SlicesAround(src, starts.oldStart - 1);
    assert [] + texts + [] == texts;
  }

  /** The loops, for a hunk that only inserts. */
  lemma InsertionScan(src: Lines, header: string, starts: Header, texts: Lines)
    requires ParseHeader(header) == Some(starts)
    ensures var start := starts.oldStart - 1;
            Scan(src, Diffs([Hunk(header, starts, Adds(texts))]), 0, [], 0) == Slice(src, 0, start) + texts + SliceFrom(src, start)
  {
    hide ParseHeader, InHunk, Slice, SliceFrom, Texts, Adds, Diffs, OldSide, NewSide;
    var h, start := Hunk(header, starts, Adds(texts)), starts.oldStart - 1;
    var body, lines := Diffs([h]), Texts(Adds(texts));
    AddsSides(texts);
    OneHunk(h);
    assert body[0..] == body;
    Peel(body, 0, header, lines);
    assert lines + [] == lines;
    InnerLoop(src, body, 1, Adds(texts), [], [] + Slice(src, 0, start), start);
    assert [] + Slice(src, 0, start) == Slice(src, 0, start);
    assert Scan(src, body, 0, [], 0) == InHunk(src, body, 1, [] + Slice(src, 0, start), start);
    assert Scan(src, body, |body|, Slice(src, 0, start) + texts, start) == Slice(src, 0, start) + texts + SliceFrom(src, start);
  }

  lemma OneHunk(h: Hunk)
    ensures Diffs([h]) == [h.header] + Texts(h.lines)
  {
    assert [h][1..] == [];
    assert [h.header] + Texts(h.lines) + [] == [h.header] + Texts(h.lines);
  }

  lemma SlicesAround(src: Lines, start: int)
    requires -1 <= start < |src| || (start == -1 && src == [])
    ensures start >= 0 ==> Slice(src, 0, start) == src[..start] && SliceFrom(src, start) == src[start..]
    ensures start == -1 && src == [] ==> Slice(src, 0, start) == [] && SliceFrom(src, start) == []
    ensures start == -1 && src != [] ==>
      Slice(src, 0, start) == src[..|src| - 1] && SliceFrom(src, start) == [src[|src| - 1]]
  {
  }

  lemma {:induction false} CommutesWithOne(texts: Lines, x: string)
    ensures texts + [x] == [x] + texts <==> forall i :: 0 <= i < |texts| ==> texts[i] == x
  {
    if texts != [] {
      CommutesWithOne(texts[1..], x);
      if texts + [x] == [x] + texts {
        assert texts[0] == (texts + [x])[0] == x;
        assert texts[1..] + [x] == (texts + [x])[1..] == texts == [x] + texts[1..];
        forall i | 0 <= i < |texts|
          ensures texts[i] == x
        {
          assert i > 0 ==> texts[i] == texts[1..][i - 1];
        }
      }
      if forall i :: 0 <= i < |texts| ==> texts[i] == x {
        AllAlike(texts, x);
      }
    }
  }

  lemma AllAlike(texts: Lines, x: string)
    requires forall i :: 0 <= i < |texts| ==> texts[i] == x
    ensures texts + [x] == [x] + texts
  {
  }

  lemma Surrounded(a: Lines, x: Lines, y: Lines, b: Lines)
    requires |x| == |y|
    ensures a + x + b == a + y + b <==> x == y
  {
    if a + x + b == a + y + b {
      assert (a + x + b)[|a|..|a| + |x|] == x;
      assert (a + y + b)[|a|..|a| + |x|] == y;
    }
  }

  lemma EarlyByOne(a: Lines, x: string, texts: Lines, b: Lines)
    ensures a + texts + ([x] + b) == a + [x] + texts + b <==> texts + [x] == [x] + texts
  {
    assert a + texts + ([x] + b) == a + (texts + [x]) + b;
    assert a + [x] + texts + b == a + ([x] + texts) + b;
    Surrounded(a, texts + [x], [x] + texts, b);
  }

  /**
   An insertion after line `p` ends up in the right place exactly when every inserted line equals
   line `p`: it is placed one line too early.
   */
  lemma InsertionMisplaced(src: Lines, header: string, starts: Header, texts: Lines)
    requires ParseHeader(header) == Some(starts) && 0 < starts.oldStart <= |src|
    ensures var p := starts.oldStart;
            Apply(src, Diffs([Hunk(header, starts, Adds(texts))])) == Some(src[..p] + texts + src[p..])
            <==> forall i :: 0 <= i < |texts| ==> texts[i] == src[p - 1]
  {
    hide ParseHeader, Apply, Diffs;
    var p := starts.oldStart;
    InsertionEffect(src, header, starts, texts);
    CommutesWithOne(texts, src[p - 1]);
    assert src[p - 1..] == [src[p - 1]] + src[p..];
    assert src[..p] == src[..p - 1] + [src[p - 1]];
    EarlyByOne(src[..p - 1], src[p - 1], texts, src[p..]);
  }

  /**
   An insertion at the very beginning lands before the last line instead; it is right only if the
   lines before that one can be exchanged with the insertion.
   */
  lemma InsertionAtStartMisplaced(src: Lines, header: string, starts: Header, texts: Lines)
    requires ParseHeader(header) == Some(starts) && starts.oldStart == 0
    ensures Apply(src, Diffs([Hunk(header, starts, Adds(texts))])) == Some(texts + src)
       <==> src == [] || src[..|src| - 1] + texts == texts + src[..|src| - 1]
  {
    hide ParseHeader, Apply, Diffs;
    InsertionEffect(src, header, starts, texts);
    if src != [] {
      var front, last := src[..|src| - 1], [src[|src| - 1]];
      assert texts + src == (texts + front) + last;
      assert (front + texts + last)[..|src| - 1 + |texts|] == front + texts;
      assert ((texts + front) + last)[..|src| - 1 + |texts|] == texts + front;
    } else {
      assert texts + src == texts;
    }
  }
}
