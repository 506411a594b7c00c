/**
 Progress of the in-memory queue, call by call: apart from submissions, the work outstanding falls
 by at least one for every job that a call hands out, finishes, sends back, buries, cancels,
 expires or prunes. What the books say was granted plays no part in what a call does.
 */
module QueueProgress {
  import opened Wrappers
  import opened Dictionaries
  import opened MemoryQueue
  import opened QueuePlaces
  import opened QueueCounts
  import opened QueueRuns

  function Regrant(s: Store, granted: nat): Store {
    s.(log := s.log.(granted := granted))
  }

  lemma PurgeRegrant(s: Store, g: nat, key: string, p: Priority, now: real)
    ensures Purge(Regrant(s, g), key, p, now) == Regrant(Purge(s, key, p, now), g)
  {
    hide Unexpired, Dropped, Overdue;
  }

  lemma {:induction false} ScanLanesRegrant(s: Store, g: nat, key: string, k: nat, types: seq<string>, now: real)
    requires k <= 4
    ensures var r := ScanLanes(s, key, k, types, now);
            ScanLanes(Regrant(s, g), key, k, types, now) == Scan(Regrant(r.store, g), r.choice)
    decreases 4 - k
  {
    hide Purge, FirstMatch;
    if k < 4 {
      PurgeRegrant(s, g, key, LEVELS[k], now);
      ScanLanesRegrant(Purge(s, key, LEVELS[k], now), g, key, k + 1, types, now);
    }
  }

  lemma {:induction false} ScanRegrant(s: Store, g: nat, order: seq<string>, types: seq<string>, now: real)
    ensures var r := ScanTenants(s, order, types, now);
            ScanTenants(Regrant(s, g), order, types, now) == Scan(Regrant(r.store, g), r.choice)
    decreases |order|
  {
    hide ScanLanes;
    if order != [] {
      var t := WithTenant(s, order[0]);
      assert WithTenant(Regrant(s, g), order[0]) == Regrant(t, g);
      ScanLanesRegrant(t, g, order[0], 0, types, now);
      ScanRegrant(ScanLanes(t, order[0], 0, types, now).store, g, order[1..], types, now);
    }
  }

  lemma ClaimRegrant(s: Store, g: nat, c: Choice, now: real)
    requires Chosen(s, c)
    ensures Claim(Regrant(s, g), c, now) == Regrant(Claim(s, c, now), g)
  {
  }

  lemma {:induction false} DequeueRegrant(s: Store, g: nat, order: seq<string>, types: seq<string>, max: nat, now: real)
    ensures Dequeue(Regrant(s, g), order, types, max, now).store == Regrant(Dequeue(s, order, types, max, now).store, g)
    decreases max
  {
    hide ScanTenants, Claim;
    if max > 0 {
      ScanRegrant(s, g, order, types, now);
      ScanChooses(s, order, types, now);
      var scan := ScanTenants(s, order, types, now);
      if scan.choice.Some? {
        ClaimRegrant(scan.store, g, scan.choice.value, now);
        DequeueRegrant(Claim(scan.store, scan.choice.value, now), g, order, types, max - 1, now);
      }
    }
  }

  lemma CompleteRegrant(s: Store, g: nat, id: string, result: string, now: real)
    ensures Complete(Regrant(s, g), id, result, now).store == Regrant(Complete(s, id, result, now).store, g)
  {
    hide StaleIds;
  }

  lemma EnqueueRegrant(c: Settings, s: Store, g: nat, job: Job, now: real)
    ensures var a := Enqueue(c, s, job, now); Enqueue(c, Regrant(s, g), job, now) == a.(store := Regrant(a.store, g))
  {
    hide Level, Value, Size, Sum;
  }

  lemma FailRegrant(c: Settings, s: Store, g: nat, id: string, error: string, retry: bool, now: real)
    ensures Fail(c, Regrant(s, g), id, error, retry, now).store == Regrant(Fail(c, s, id, error, retry, now).store, g)
  {
    hide Enqueue;
    if id in s.processing {
      var j := s.processing[id].(error := Some(error));
      EnqueueRegrant(c, StopProcessing(s, id), g, ForRetry(c, j, now), now);
    }
  }

  lemma {:induction false} FindRegrant(s: Store, g: nat, order: seq<string>, id: string)
    ensures FindQueued(Regrant(s, g), order, id) == FindQueued(s, order, id)
  {
    hide FindInLanes;
    if order != [] {
      FindRegrant(s, g, order[1..], id);
    }
  }

  lemma CancelRegrant(s: Store, g: nat, id: string, now: real)
    ensures Cancel(Regrant(s, g), id, now).store == Regrant(Cancel(s, id, now).store, g)
  {
    hide FindQueued;
    FindRegrant(s, g, s.queues.keys, id);
  }

  lemma ApplyRegrant(c: Settings, s: Store, g: nat, call: Call)
    requires !call.Submit?
    ensures Apply(c, Regrant(s, g), call) == Regrant(Apply(c, s, call), g)
  {
    hide Dequeue, Complete, Fail, Cancel, Regrant;
    match call
    case Take(order, types, max, now) => DequeueRegrant(s, g, order, types, max, now);
    case Finish(id, result, now) => CompleteRegrant(s, g, id, result, now);
    case GiveUp(id, error, retry, now) => FailRegrant(c, s, g, id, error, retry, now);
    case Abort(id, now) => CancelRegrant(s, g, id, now);
  }

  lemma RegrantKeeps(c: Settings, s: Store, g: nat)
    requires Good(c, s) && Steps(s) + Work(s) <= g
    ensures Good(c, Regrant(s, g)) && Steps(Regrant(s, g)) == Steps(s) && Work(Regrant(s, g)) == Work(s)
  {
    hide TotalQueued, DeadTotal, Bounded, Landed;
    SameSizes(s, Regrant(s, g));
  }

  lemma GoodIsAudited(c: Settings, s: Store)
    requires Good(c, s)
    ensures Steps(s) + Work(s) <= s.log.granted
  {
    hide Placed, Bounded, Landed;
  }

  lemma SameProgress(s: Store, g: nat)
    ensures Steps(Regrant(s, g)) == Steps(s) && Work(Regrant(s, g)) == Work(s)
  {
  }

  /** The measure falls by every step a call takes; only submissions raise it. */
  lemma WorkFalls(c: Settings, calls: seq<Call>)
    requires Legal(c, calls) && calls != [] && !calls[|calls| - 1].Submit?
    ensures var s, t := Run(c, calls[..|calls| - 1]), Run(c, calls);
            Work(t) + Steps(t) <= Work(s) + Steps(s)
  {
    hide Good, Apply, Work, Steps, Regrant;
    var n := |calls| - 1;
    var s, call := Run(c, calls[..n]), calls[n];
    RunIsGood(c, calls[..n]);
    var g := Work(s) + Steps(s);
    RegrantKeeps(c, s, g);
    ApplyKeeps(c, Regrant(s, g), call);
    ApplyRegrant(c, s, g, call);
    GoodIsAudited(c, Regrant(Apply(c, s, call), g));
    SameProgress(Apply(c, s, call), g);
    assert Regrant(Apply(c, s, call), g).log.granted == g by { GrantOf(Apply(c, s, call), g); }
  }

  lemma GrantOf(s: Store, g: nat)
    ensures Regrant(s, g).log.granted == g
  {
  }
}
