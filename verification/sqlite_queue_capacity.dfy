/**
 The size limit of the SQLite queue. It is enforced on submission only: a call that brings a job
 which is over back into a full queue exceeds it, and nothing else does.
 */
module SqliteCapacity {
  import opened Wrappers
  import opened Dictionaries
  import opened Jobs
  import opened SqliteQueue
  import opened SqliteLeases

  function Capacity(c: Limits): nat { if c.maxSize > 0 then c.maxSize else 0 }

  ghost predicate Fitting(c: Limits, t: Table) {
    |LiveIds(t)| <= Capacity(c)
  }

  /** `fail` with a retry left, or `requeue`, of a row that is neither queued nor running. */
  predicate Revives(t: Table, e: Timed) {
    match e.call
    case GiveUp(id, _, retry) => id in t && !Live(t[id]) && retry && t[id].retryCount < t[id].maxRetries
    case SendBack(id, _, _) => id in t && !Live(t[id])
    case _ => false
  }

  /** ... while the queue is full. */
  predicate Overflows(c: Limits, t: Table, e: Timed) {
    Revives(t, e) && |LiveIds(t)| == Capacity(c)
  }

  lemma LiveBelow(t: Table, u: Table)
    requires forall id :: id in u && Live(u[id]) ==> id in t && Live(t[id])
    ensures |LiveIds(u)| <= |LiveIds(t)|
  {
    SubsetSize(LiveIds(u), LiveIds(t));
  }

  lemma SweepIsNoRevival(c: Limits, r: Row, now: real)
    ensures Live(Swept(c, r, now)) ==> Live(r)
  {
  }

  lemma PutFits(c: Limits, t: Table, id: string, job: Row, now: real)
    requires Fitting(c, t)
    ensures Fitting(c, Enqueue(c, t, id, job, now).table)
  {
    if |LiveIds(t)| < c.maxSize {
      var u := Enqueue(c, t, id, job, now).table;
      SubsetSize(LiveIds(u), LiveIds(t) + {id});
    }
  }

  lemma TakeFits(c: Limits, t: Table, e: Timed)
    requires e.call.Take?
    ensures |LiveIds(Apply(c, t, e))| <= |LiveIds(t)|
  {
    hide Dequeue, LiveIds, Swept;
    var u := Apply(c, t, e);
    TakeKeepsKeys(c, t, e);
    forall id | id in u && Live(u[id])
      ensures id in t && Live(t[id])
    {
      TakeClaims(c, t, e.call.scan, e.call.worker, e.call.types, e.call.limit, e.now, id);
      SweepIsNoRevival(c, t[id], e.now);
    }
    LiveBelow(t, u);
  }

  /** A revival adds exactly the revived row. */
  lemma RevivalAdds(c: Limits, t: Table, e: Timed)
    requires Revives(t, e)
    ensures |LiveIds(Apply(c, t, e))| == |LiveIds(t)| + 1
  {
    var id := e.call.id;
    var u := Apply(c, t, e);
    assert id !in LiveIds(t);
    assert LiveIds(u) == LiveIds(t) + {id};
  }

  lemma OthersFit(c: Limits, t: Table, e: Timed)
    requires Fitting(c, t) && !Revives(t, e)
    ensures Fitting(c, Apply(c, t, e))
  {
    hide Dequeue, LiveIds;
    match e.call
    case Put(id, job) => PutFits(c, t, id, job, e.now);
    case Take(_, _, _, _) => TakeFits(c, t, e);
    case _ => LiveBelow(t, Apply(c, t, e));
  }

  /** From a table within the limit, a call leaves it within the limit exactly unless it revives a row while the queue is full. */
  lemma ExceedsOnlyByRevival(c: Limits, t: Table, e: Timed)
    requires Fitting(c, t)
    ensures Fitting(c, Apply(c, t, e)) <==> !Overflows(c, t, e)
  {
    hide Apply, Revives, LiveIds;
    if Revives(t, e) {
      RevivalAdds(c, t, e);
    } else {
      OthersFit(c, t, e);
    }
  }

  lemma RunGrows(c: Limits, calls: seq<Timed>, i: nat)
    requires i < |calls|
    ensures Run(c, calls[..i + 1]) == Apply(c, Run(c, calls[..i]), calls[i])
  {
    hide Apply;
    assert calls[..i + 1][..i] == calls[..i];
  }

  ghost predicate NeverOverflows(c: Limits, calls: seq<Timed>) {
    forall i :: 0 <= i < |calls| ==> !Overflows(c, Run(c, calls[..i]), calls[i])
  }

  lemma {:induction false} FitsUpTo(c: Limits, calls: seq<Timed>, i: nat)
    requires NeverOverflows(c, calls) && i <= |calls|
    ensures Fitting(c, Run(c, calls[..i]))
  {
    hide Run, Apply, Fitting, Overflows;
    if i == 0 {
      EmptyFits(c);
      assert calls[..0] == [];
    } else {
      FitsUpTo(c, calls, i - 1);
      RunGrows(c, calls, i - 1);
      ExceedsOnlyByRevival(c, Run(c, calls[..i - 1]), calls[i - 1]);
    }
  }

  /** The limit holds throughout a run exactly when no call of it revives a row while the queue is full. */
  lemma LimitHoldsThroughout(c: Limits, calls: seq<Timed>)
    ensures (forall i :: 0 <= i <= |calls| ==> Fitting(c, Run(c, calls[..i]))) <==> NeverOverflows(c, calls)
  {
    hide Run, Apply, Fitting, Overflows;
    if NeverOverflows(c, calls) {
      forall i | 0 <= i <= |calls|
        ensures Fitting(c, Run(c, calls[..i]))
      {
        FitsUpTo(c, calls, i);
      }
    }
    if forall i :: 0 <= i <= |calls| ==> Fitting(c, Run(c, calls[..i])) {
      forall i | 0 <= i < |calls|
        ensures !Overflows(c, Run(c, calls[..i]), calls[i])
      {
        RunGrows(c, calls, i);
        assert Fitting(c, Run(c, calls[..i])) && Fitting(c, Run(c, calls[..i + 1]));
        ExceedsOnlyByRevival(c, Run(c, calls[..i]), calls[i]);
      }
    }
  }

  lemma EmptyFits(c: Limits)
    ensures Fitting(c, Run(c, []))
  {
    assert LiveIds(map[]) == {};
  }

  // --- a run that exceeds it -------------------------------------------------------------

  const ONE: Limits := Limits(1, 0.0, 300.0)

  function Fresh(): Row {
    Row("k", 50, Queued, 0.0, None, None, None, 0, 3, None, None, None, None)
  }

  /** Submit `a`, claim it, finish it, submit `b`, and fail `a` with a retry. */
  function Overfull(): seq<Timed> {
    [Timed(Put("a", Fresh()), 1.0), Timed(Take(["a"], "w", ["k"], 1), 2.0), Timed(Finish("a", "done"), 3.0),
     Timed(Put("b", Fresh()), 4.0), Timed(GiveUp("a", "late", true), 5.0)]
  }

  lemma TakeLeaves(c: Limits, t: Table, e: Timed, id: string)
    requires e.call.Take? && t.Keys == {id}
    ensures Apply(c, t, e).Keys == {id} && Apply(c, t, e)[id].maxRetries == t[id].maxRetries
    ensures Apply(c, t, e)[id].retryCount <= t[id].retryCount + 1
  {
    hide Dequeue;
    TakeKeepsKeys(c, t, e);
    TakeClaims(c, t, e.call.scan, e.call.worker, e.call.types, e.call.limit, e.now, id);
  }

  /** Two live rows where one is the limit. */
  lemma TwoWhereOneIsTheLimit()
    ensures ONE.maxSize == 1 && LiveIds(Run(ONE, Overfull())) == {"a", "b"} && |LiveIds(Run(ONE, Overfull()))| == 2
  {
    hide Dequeue;
    var calls := Overfull();
    var t1 := Apply(ONE, map[], calls[0]);
    var t2 := Apply(ONE, t1, calls[1]);
    var t3 := Apply(ONE, t2, calls[2]);
    var t4 := Apply(ONE, t3, calls[3]);
    var t5 := Apply(ONE, t4, calls[4]);
    assert LiveIds(map[]) == {};
    assert t1 == map["a" := Fresh()];
    TakeLeaves(ONE, t1, calls[1], "a");
    assert LiveIds(t3) == {};
    assert "a" != "b";
    assert t4.Keys == {"a", "b"};
    assert LiveIds(t5) == {"a", "b"};
    Unrolled(calls, t1, t2, t3, t4, t5);
  }

  lemma Unrolled(calls: seq<Timed>, t1: Table, t2: Table, t3: Table, t4: Table, t5: Table)
    requires |calls| == 5 && t1 == Apply(ONE, map[], calls[0]) && t2 == Apply(ONE, t1, calls[1]) && t3 == Apply(ONE, t2, calls[2])
    requires t4 == Apply(ONE, t3, calls[3]) && t5 == Apply(ONE, t4, calls[4])
    ensures Run(ONE, calls) == t5
  {
    hide Apply;
    assert calls[..1][..0] == [];
    assert Run(ONE, calls[..1]) == t1;
    assert calls[..2][..1] == calls[..1];
    assert Run(ONE, calls[..2]) == t2;
    assert calls[..3][..2] == calls[..2];
    assert Run(ONE, calls[..3]) == t3;
    assert calls[..4][..3] == calls[..3];
    assert Run(ONE, calls[..4]) == t4;
  }
}
