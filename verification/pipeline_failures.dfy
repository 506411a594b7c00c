/**
 Failure accounting: every accepted dispatch is a failed request, a size-limited epoch or a
 window-limited epoch; the per-mechanism counts add up; losses are counted; and a workload
 beyond a hard limit never delivers a frame.
 */
module Failures {
  import opened Wrappers
  import opened Events
  import opened Pipeline
  import opened Effects

  ghost function AllReasons(r: map<Mechanism, nat>): nat {
    Count(r, ResourceExhaustion) + Count(r, LockContention) + Count(r, DependencyTimeout) + Count(r, PoolExhaustion)
  }

  /** Batches of a kind. */
  ghost function Tally(batches: seq<Batch>, p: Batch -> bool): nat {
    if batches == [] then 0
    else Tally(batches[..|batches| - 1], p) + (if p(batches[|batches| - 1]) then 1 else 0)
  }

  predicate Died(b: Batch) { b.failure.Some? }

  predicate Filled(b: Batch) { b.failure.None? && b.reason == BySize }

  predicate TimedOut(b: Batch) { b.failure.None? && b.reason == ByWindow }

  function DiedOf(m: Mechanism): Batch -> bool { (b: Batch) => b.failure == Some(m) }

  lemma TallyAppend(batches: seq<Batch>, b: Batch, p: Batch -> bool)
    ensures Tally(batches + [b], p) == Tally(batches, p) + (if p(b) then 1 else 0)
  {
    assert (batches + [b])[..|batches|] == batches;
  }

  lemma OneMoreReason(r: map<Mechanism, nat>, m: Mechanism)
    ensures AllReasons(r[m := Count(r, m) + 1]) == AllReasons(r) + 1
  {
    match m
    case ResourceExhaustion =>
    case LockContention =>
    case DependencyTimeout =>
    case PoolExhaustion =>
  }

  ghost predicate Balanced(stats: Stats, batches: seq<Batch>) {
    && stats.requests == |batches|
    && stats.requests == stats.failed + stats.sizeLimited + stats.windowLimited
    && stats.failed == AllReasons(stats.reasons)
    && stats.failed == Tally(batches, Died)
    && stats.sizeLimited == Tally(batches, Filled)
    && stats.windowLimited == Tally(batches, TimedOut)
    && forall m :: Count(stats.reasons, m) == Tally(batches, DiedOf(m))
  }

  ghost predicate Accounted(s: State) {
    && Balanced(s.stats, s.log.batches)
    && s.stats.dropped == |s.log.lost| + |s.log.evicted|
  }

  /** One more batch is counted once. */
  lemma OneMoreBatch(stats: Stats, batches: seq<Batch>, b: Batch, t: Stats)
    requires Balanced(stats, batches) && t.requests == stats.requests + 1
    requires if b.failure.Some? then t.failed == stats.failed + 1 && t.reasons == stats.reasons[b.failure.value := Count(stats.reasons, b.failure.value) + 1]
             else t.failed == stats.failed && t.reasons == stats.reasons
    requires t.sizeLimited == stats.sizeLimited + (if b.failure.None? && b.reason == BySize then 1 else 0)
    requires t.windowLimited == stats.windowLimited + (if b.failure.None? && b.reason == ByWindow then 1 else 0)
    ensures Balanced(t, batches + [b])
  {
    hide Tally, AllReasons;
    TallyAppend(batches, b, Died);
    TallyAppend(batches, b, Filled);
    TallyAppend(batches, b, TimedOut);
    if b.failure.Some? {
      OneMoreReason(stats.reasons, b.failure.value);
    }
    forall m
      ensures Count(t.reasons, m) == Tally(batches + [b], DiedOf(m))
    {
      TallyAppend(batches, b, DiedOf(m));
    }
  }

  lemma DispatchAccounted(c: Config, s: State, now: real, reason: Reason, draw: real)
    requires Accounted(s)
    ensures Accounted(Dispatch(c, s, now, reason, draw))
  {
    hide Insert, Record, Board, Verdict, ServiceTime, LockWait, Balanced, Ids;
    if s.epoch != [] && s.busy < c.workers {
      var b := Batch(s.log.openedAt, now, |s.epoch|, reason, Verdict(c, s, now, draw));
      OneMoreBatch(s.stats, s.log.batches, b, Dispatch(c, s, now, reason, draw).stats);
    }
  }

  lemma PlaceAccounted(c: Config, s: State, frame: Frame, d: Draws)
    requires Accounted(s)
    ensures Accounted(Place(c, s, frame, d))
  {
    hide StartEpoch, Dispatch;
    var open := if s.epoch == [] then StartEpoch(c, s, s.clock) else s;
    StartEpochTouches(c, s, s.clock);
    DispatchAccounted(c, open.(epoch := open.epoch + [frame]), s.clock, BySize, d.lock);
  }

  lemma RefillAccounted(c: Config, s: State, d: Draws)
    requires Accounted(s)
    ensures Accounted(Refill(c, s, d))
  {
    hide StartEpoch, Dispatch;
    StartEpochTouches(c, s, s.clock);
    DispatchAccounted(c, Fill(c, StartEpoch(c, s, s.clock)), s.clock, BySize, d.lock);
    DispatchAccounted(c, s, s.clock, BySize, d.lock);
  }

  lemma StepAccounted(c: Config, s: State, d: Draws)
    requires Accounted(s) && Live(c, s)
    ensures Accounted(Step(c, s, d))
  {
    hide Insert, Place, Refill, Depart, Dispatch, Sample, OnDeliver, AllReasons, Tally;
    var p := Pop(s);
    match s.queue[0].event
    case Arrival => PlaceAccounted(c, Capture(c, p), Frame(p.clock, p.next), d);
    case EpochTimer(_) => DispatchAccounted(c, p, p.clock, ByWindow, d.lock);
    case ServerDone(items, service) =>
      var departed := Depart(c, Credit(c, Release(p), service), items, |items|, d.hops);
      DepartTouches(c, Credit(c, Release(p), service), items, |items|, d.hops);
      RefillAccounted(c, departed, d);
    case ServerFailed(_) => RefillAccounted(c, Release(p), d);
    case Deliver(id) => DeliverTouches(c, p, id);
    case Consume => SampleTouches(c, p);
  }

  lemma StartIsAccounted(c: Config, gap: real)
    ensures Accounted(Start(c, gap))
  {
    hide Insert, Balanced;
    NothingIsBalanced(Start(c, gap).stats);
  }

  lemma NothingIsBalanced(stats: Stats)
    requires stats.requests == stats.failed == stats.sizeLimited == stats.windowLimited == 0 && stats.reasons == map[]
    ensures Balanced(stats, [])
  {
  }

  /** Failure accounting over whole runs. */
  lemma {:induction false} RunIsAccounted(c: Config, draws: nat -> Draws, n: nat)
    ensures Accounted(Run(c, draws, n))
  {
    hide Step, Start, Accounted;
    if n == 0 {
      StartIsAccounted(c, draws(0).gap);
    } else {
      RunIsAccounted(c, draws, n - 1);
      if Live(c, Run(c, draws, n - 1)) {
        StepAccounted(c, Run(c, draws, n - 1), draws(n));
      }
    }
  }

  // --- beyond a hard limit --------------------------------------------------

  /** Demand above a declared ceiling: of memory, or of the connection pool. */
  predicate Doomed(c: Config) {
    c.pressure > 1.0 || (c.poolSize > 0.0 && c.poolDemand > c.poolSize)
  }

  /** Nothing is served, on the link, received or consumed. */
  ghost predicate Barren(s: State) {
    && (forall e :: e in s.queue ==> !e.event.ServerDone? && !e.event.Deliver?)
    && s.buffer == [] && s.log.consumed == [] && s.stats.served == 0
  }

  lemma PushBarren(s: State, t: real, event: Event)
    requires Barren(s) && !event.ServerDone? && !event.Deliver?
    ensures Barren(Push(s, t, event))
  {
    hide Insert;
    InsertMembers(s.queue, Entry(t, s.stamp + 1, event));
  }

  lemma DispatchBarren(c: Config, s: State, now: real, reason: Reason, draw: real)
    requires Doomed(c) && Barren(s)
    ensures Barren(Dispatch(c, s, now, reason, draw))
  {
    hide Insert, LockWait, ServiceTime;
    if s.epoch != [] && s.busy < c.workers {
      var verdict := Verdict(c, s, now, draw);
      PushBarren(MarkFailed(Close(s, now, reason, verdict), s.epoch, verdict.value), now, ServerFailed(s.epoch));
    }
  }

  lemma StartEpochBarren(c: Config, s: State, now: real)
    requires Barren(s)
    ensures Barren(StartEpoch(c, s, now))
  {
    hide Insert;
    var due := if c.window > 0.0 then now + c.window else now;
    PushBarren(Reopen(s, now, due), due, EpochTimer(s.generation + 1));
  }

  lemma PlaceBarren(c: Config, s: State, frame: Frame, d: Draws)
    requires Doomed(c) && Barren(s)
    ensures Barren(Place(c, s, frame, d))
  {
    hide StartEpoch, Dispatch;
    var open := if s.epoch == [] then StartEpoch(c, s, s.clock) else s;
    StartEpochBarren(c, s, s.clock);
    DispatchBarren(c, open.(epoch := open.epoch + [frame]), s.clock, BySize, d.lock);
  }

  lemma RefillBarren(c: Config, s: State, d: Draws)
    requires Doomed(c) && Barren(s)
    ensures Barren(Refill(c, s, d))
  {
    hide StartEpoch, Dispatch;
    StartEpochBarren(c, s, s.clock);
    DispatchBarren(c, Fill(c, StartEpoch(c, s, s.clock)), s.clock, BySize, d.lock);
    DispatchBarren(c, s, s.clock, BySize, d.lock);
  }

  lemma StepBarren(c: Config, s: State, d: Draws)
    requires Doomed(c) && Barren(s) && Live(c, s)
    ensures Barren(Step(c, s, d))
  {
    hide Insert, Place, Refill, Dispatch;
    var p := Pop(s);
    assert s.queue[0] in s.queue;
    assert Barren(p);
    match s.queue[0].event
    case Arrival =>
      PlaceBarren(c, Capture(c, p), Frame(p.clock, p.next), d);
      PushBarren(Place(c, Capture(c, p), Frame(p.clock, p.next), d), p.clock + d.gap, Arrival);
    case EpochTimer(_) => DispatchBarren(c, p, p.clock, ByWindow, d.lock);
    case ServerFailed(_) => RefillBarren(c, Release(p), d);
    case Consume => PushBarren(p, p.clock + c.period, Consume);
  }

  /** Beyond a hard limit no frame is ever served, delivered or consumed, in any run. */
  lemma {:induction false} DoomedServesNothing(c: Config, draws: nat -> Draws, n: nat)
    requires Doomed(c)
    ensures Barren(Run(c, draws, n))
  {
    hide Insert, Step, Barren;
    if n == 0 {
      var s := Start(c, draws(0).gap).(queue := [], stamp := 0);
      assert Barren(s) by { NothingIsBarren(s); }
      PushBarren(s, draws(0).gap, Arrival);
      PushBarren(Push(s, draws(0).gap, Arrival), 0.0, Consume);
    } else {
      DoomedServesNothing(c, draws, n - 1);
      if Live(c, Run(c, draws, n - 1)) {
        StepBarren(c, Run(c, draws, n - 1), draws(n));
      }
    }
  }

  lemma NothingIsBarren(s: State)
    requires s.queue == [] && s.buffer == [] && s.log.consumed == [] && s.stats.served == 0
    ensures Barren(s)
  {
  }

  /** In the source's own units: demand over a positive limit starves the consumer. */
  lemma OverTheLimitStarves(p: Params, r: Request, draws: nat -> Draws, n: nat)
    requires (p.resourceLimitMb > 0.0 && p.resourceDemandMb > p.resourceLimitMb)
          || (p.dbPoolSize > 0.0 && p.dbDemandConnections > p.dbPoolSize)
    ensures var s := Run(Configure(p, r), draws, n); Barren(s) && s.stats.failed == s.stats.requests
  {
    hide Run, Barren;
    var c := Configure(p, r);
    DoomedServesNothing(c, draws, n);
    DoomedFailsEverything(c, draws, n);
  }

  /** ... because every request fails. */
  lemma {:induction false} DoomedFailsEverything(c: Config, draws: nat -> Draws, n: nat)
    requires Doomed(c)
    ensures var s := Run(c, draws, n).stats; s.failed == s.requests
  {
    hide Insert, Step;
    if n > 0 && Live(c, Run(c, draws, n - 1)) {
      DoomedFailsEverything(c, draws, n - 1);
      DoomedServesNothing(c, draws, n - 1);
      StepFails(c, Run(c, draws, n - 1), draws(n));
    } else if n > 0 {
      DoomedFailsEverything(c, draws, n - 1);
    }
  }

  lemma DoomedVerdict(c: Config, s: State, now: real, draw: real)
    requires Doomed(c) && s.epoch != []
    ensures Verdict(c, s, now, draw).Some?
  {
    hide LockWait, ServiceTime;
  }

  lemma DispatchFails(c: Config, s: State, now: real, reason: Reason, draw: real)
    requires Doomed(c)
    ensures var r := Dispatch(c, s, now, reason, draw).stats;
            r.failed - r.requests == s.stats.failed - s.stats.requests
  {
    hide Insert, Verdict, Serve, Ids, Doomed;
    if s.epoch != [] {
      DoomedVerdict(c, s, now, draw);
    }
  }

  lemma StepFails(c: Config, s: State, d: Draws)
    requires Doomed(c) && Live(c, s)
    ensures var r := Step(c, s, d).stats; r.failed - r.requests == s.stats.failed - s.stats.requests
  {
    hide Insert, StartEpoch, Dispatch, Depart, Sample, OnDeliver;
    var p := Pop(s);
    match s.queue[0].event
    case Arrival =>
      var born, frame := Capture(c, p), Frame(p.clock, p.next);
      var open := if born.epoch == [] then StartEpoch(c, born, born.clock) else born;
      StartEpochTouches(c, born, born.clock);
      DispatchFails(c, open.(epoch := open.epoch + [frame]), born.clock, BySize, d.lock);
    case EpochTimer(_) => DispatchFails(c, p, p.clock, ByWindow, d.lock);
    case ServerDone(items, service) =>
      DepartTouches(c, Credit(c, Release(p), service), items, |items|, d.hops);
      RefillFails(c, Depart(c, Credit(c, Release(p), service), items, |items|, d.hops), d);
    case ServerFailed(_) => RefillFails(c, Release(p), d);
    case Deliver(id) => DeliverTouches(c, p, id);
    case Consume => SampleTouches(c, p);
  }

  lemma RefillFails(c: Config, s: State, d: Draws)
    requires Doomed(c)
    ensures var r := Refill(c, s, d).stats; r.failed - r.requests == s.stats.failed - s.stats.requests
  {
    hide StartEpoch, Dispatch;
    StartEpochTouches(c, s, s.clock);
    DispatchFails(c, Fill(c, StartEpoch(c, s, s.clock)), s.clock, BySize, d.lock);
    DispatchFails(c, s, s.clock, BySize, d.lock);
  }
}
