/**
 The unified-diff applier on lines: the header pattern, Python's slices, and the two cursors, one
 over the diff and one over the source. Lines keep their terminators.
 */
module Diff {
  import opened Wrappers

  predicate IsDigit(c: char) { '0' <= c <= '9' }

  function DigitCount(s: string): (n: nat)
    ensures n <= |s|
  {
    if s == "" || !IsDigit(s[0]) then 0 else 1 + DigitCount(s[1..])
  }

  function Digit(c: char): nat
    requires IsDigit(c)
  {
    (c - '0') as nat
  }

  function Number(digits: string): nat
    requires forall i :: 0 <= i < |digits| ==> IsDigit(digits[i])
  {
    if digits == "" then 0
    else
      var n := |digits| - 1;
      10 * Number(digits[..n]) + Digit(digits[n])
  }

  lemma {:induction false} DigitsAre(s: string)
    ensures forall i :: 0 <= i < DigitCount(s) ==> IsDigit(s[i])
    ensures DigitCount(s) < |s| ==> !IsDigit(s[DigitCount(s)])
  {
    if s != "" && IsDigit(s[0]) {
      DigitsAre(s[1..]);
      assert forall i :: 0 < i < |s| ==> s[i] == s[1..][i - 1];
    }
  }

  /** The optional `,count` of a range. */
  function SkipCount(s: string): string {
    if "," <= s && DigitCount(s[1..]) > 0 then s[1 + DigitCount(s[1..])..] else s
  }

  datatype Range = Range(start: nat, rest: string)

  function ParseRange(s: string): Option<Range> {
    var k := DigitCount(s);
    DigitsAre(s);
    if k == 0 then None else Some(Range(Number(s[..k]), SkipCount(s[k..])))
  }

  datatype Header = Header(oldStart: nat, newStart: nat)

  /** A hunk header at the beginning of a line. */
  function ParseHeader(line: string): Option<Header> {
    if !("@@ -" <= line) then None
    else
      var a := ParseRange(line[4..]);
      if a.None? || !(" +" <= a.value.rest) then None
      else
        var b := ParseRange(a.value.rest[2..]);
        if b.None? || !(" @@" <= b.value.rest) then None else Some(Header(a.value.start, b.value.start))
  }

  /** An index of a Python slice: negative ones count from the end, and all are clamped. */
  function Clamp(i: int, n: nat): nat {
    if i < 0 then (if i + n < 0 then 0 else i + n) else if i > n then n else i
  }

  function Slice<T>(s: seq<T>, lo: int, hi: int): seq<T> {
    var a, b := Clamp(lo, |s|), Clamp(hi, |s|);
    if a < b then s[a..b] else []
  }

  function SliceFrom<T>(s: seq<T>, lo: int): seq<T> { s[Clamp(lo, |s|)..] }

  predicate HasHeader(body: seq<string>) {
    exists i :: 0 <= i < |body| && ParseHeader(body[i]).Some?
  }

  predicate Begins(line: string, c: char) { line != "" && line[0] == c }

  /** What a line of a hunk contributes to the output, and whether it consumes a line of the source. */
  function Output(line: string): seq<string> {
    if Begins(line, '+') then [line[1..]]
    else if Begins(line, ' ') then [line[1..]]
    else if line == "\n" then ["\n"]
    else []
  }

  predicate Consumes(line: string) {
    Begins(line, '-') || Begins(line, ' ') || line == "\n"
  }

  /** Outside a hunk, at line `i` of the diff. */
  function Scan(src: seq<string>, body: seq<string>, i: nat, out: seq<string>, cursor: int): seq<string>
    requires i <= |body|
    decreases |body| - i, 1
  {
    if i == |body| then out + SliceFrom(src, cursor)
    else
      var h := ParseHeader(body[i]);
      if h.None? then Scan(src, body, i + 1, out, cursor)
      else
        var start := h.value.oldStart - 1;
        InHunk(src, body, i + 1, out + Slice(src, cursor, start), start)
  }

  /** Inside a hunk. */
  function InHunk(src: seq<string>, body: seq<string>, i: nat, out: seq<string>, cursor: int): seq<string>
    requires i <= |body|
    decreases |body| - i, 2
  {
    if i == |body| || "@@" <= body[i] then Scan(src, body, i, out, cursor)
    else InHunk(src, body, i + 1, out + Output(body[i]), cursor + if Consumes(body[i]) then 1 else 0)
  }

  /** `apply_diff_to_bytes`. */
  function Apply(src: seq<string>, body: seq<string>): Option<seq<string>> {
    if HasHeader(body) then Some(Scan(src, body, 0, [], 0)) else None
  }

  // --- the loops ------------------------------------------------------------------

  method HunkLine(line: string, before: seq<string>, at: int) returns (out: seq<string>, cursor: int)
    ensures out == before + Output(line) && cursor == at + if Consumes(line) then 1 else 0
  {
    out, cursor := before, at;
    if Begins(line, '-') {
      cursor := cursor + 1;
    } else if Begins(line, '+') {
      out := out + [line[1..]];
    } else if Begins(line, ' ') || line == "\n" {
      out := out + [if line != "\n" then line[1..] else "\n"];
      cursor := cursor + 1;
    }
  }

  method ApplyDiff(src: seq<string>, body: seq<string>) returns (result: Option<seq<string>>)
    ensures result == Apply(src, body)
  {
    hide ParseHeader, Slice, SliceFrom, Output, Consumes;
    var found := false;
    for k := 0 to |body|
      invariant found <==> exists j :: 0 <= j < k && ParseHeader(body[j]).Some?
    {
      if ParseHeader(body[k]).Some? {
        found := true;
      }
    }
    if !found {
      return None;
    }
    var out: seq<string> := [];
    var cursor, i := 0, 0;
    while i < |body|
      invariant 0 <= i <= |body|
      invariant Scan(src, body, i, out, cursor) == Scan(src, body, 0, [], 0)
    {
      var h := ParseHeader(body[i]);
      if h.None? {
        i := i + 1;
        continue;
      }
      var start := h.value.oldStart - 1;
      out := out + Slice(src, cursor, start);
      cursor := start;
      i := i + 1;
      while i < |body| && !("@@" <= body[i])
        invariant 0 <= i <= |body|
        invariant InHunk(src, body, i, out, cursor) == Scan(src, body, 0, [], 0)
        decreases |body| - i
      {
        out, cursor := HunkLine(body[i], out, cursor);
        i := i + 1;
      }
    }
    out := out + SliceFrom(src, cursor);
    result := Some(out);
  }
}
