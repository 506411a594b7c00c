/**
 Epoch and worker discipline: what every event keeps about the clock, the workers,
 the open epoch and its timer, and what follows for every batch of every run.
 */
module Discipline {
  import opened Wrappers
  import opened Events
  import opened Pipeline
  import opened Effects

  /** Busy workers are exactly the outstanding completions and failures. */
  ghost predicate Staffed(c: Config, q: seq<Entry>, busy: int) {
    busy == Total(q, Servers) && 0 <= busy <= c.workers
  }

  /** A timer of the current generation is due when the current window ends. */
  ghost predicate Timed(c: Config, q: seq<Entry>, generation: nat, openedAt: real) {
    forall e :: e in q && e.event.EpochTimer? ==>
      && e.event.generation <= generation
      && (e.event.generation == generation ==> e.time == openedAt + c.window)
  }

  /** An epoch that holds frames has a free worker, room for more, and a deadline. */
  ghost predicate Open(c: Config, s: State) {
    && |s.epoch| < c.maxBatch
    && s.log.openedAt <= s.clock
    && (s.epoch != [] ==> s.busy < c.workers && s.deadline == Some(s.log.openedAt + c.window))
  }

  /** ... and its timer is armed. */
  ghost predicate Armed(c: Config, s: State) {
    s.epoch != [] ==> Entry(s.log.openedAt + c.window, s.log.timer, EpochTimer(s.generation)) in s.queue
  }

  /** What closed a batch, how full it was, and how long its epoch stayed open. */
  ghost predicate WellClosed(c: Config, b: Batch) {
    && 1 <= b.size <= c.maxBatch
    && b.openedAt <= b.closedAt <= b.openedAt + c.window
    && (b.reason == ByWindow ==> b.size < c.maxBatch && b.closedAt == b.openedAt + c.window)
    && (c.workers == 1 ==> (b.reason == BySize <==> b.size == c.maxBatch))
  }

  ghost predicate Closed(c: Config, batches: seq<Batch>) {
    forall b :: b in batches ==> WellClosed(c, b)
  }

  /** What the event list, the clock, the worker count and the epoch counter say of one another. */
  ghost predicate Calendar(c: Config, q: seq<Entry>, clock: real, stamp: nat, busy: int, generation: nat, openedAt: real) {
    Timely(q, clock, stamp) && Staffed(c, q, busy) && Timed(c, q, generation, openedAt)
  }

  ghost predicate Settled(c: Config, s: State) {
    && Calendar(c, s.queue, s.clock, s.stamp, s.busy, s.generation, s.log.openedAt)
    && Closed(c, s.log.batches)
  }

  ghost predicate Orderly(c: Config, s: State) {
    Settled(c, s) && Open(c, s) && Armed(c, s)
  }

  // --- one push, one dispatch, one refill --------------------------------

  lemma PushCalendar(c: Config, q: seq<Entry>, clock: real, stamp: nat, busy: int, generation: nat, openedAt: real,
                     t: real, event: Event)
    requires Calendar(c, q, clock, stamp, busy, generation, openedAt) && t >= clock
    requires event.EpochTimer? ==> event.generation == generation && t == openedAt + c.window
    requires Servers(Entry(t, stamp + 1, event)) == 1 ==> busy < c.workers
    ensures var e := Entry(t, stamp + 1, event);
            && Calendar(c, Insert(q, e), clock, stamp + 1, busy + Servers(e), generation, openedAt)
            && forall x :: x in q || x == e ==> x in Insert(q, e)
  {
    hide Insert, Total;
    var e := Entry(t, stamp + 1, event);
    InsertTimely(q, clock, e, stamp);
    InsertMembers(q, e);
    InsertTotal(q, e, Servers);
  }

  /** The discipline does not depend on what the statistics and the frame histories say. */
  lemma SameLedger(c: Config, s: State, t: State)
    requires Orderly(c, s)
    requires t == s.(stats := t.stats, log := t.log, captures := t.captures, received := t.received, latency := t.latency,
                     buffer := t.buffer, next := t.next)
    requires t.log.openedAt == s.log.openedAt && t.log.timer == s.log.timer && t.log.batches == s.log.batches
    ensures Orderly(c, t)
  {
  }

  /** Scheduling an arrival, a delivery or a consumer tick disturbs nothing. */
  lemma PushKeeps(c: Config, s: State, t: real, event: Event)
    requires Orderly(c, s) && t >= s.clock
    requires event.Arrival? || event.Deliver? || event.Consume?
    ensures Orderly(c, Push(s, t, event))
  {
    hide Insert, Calendar, Closed;
    PushCalendar(c, s.queue, s.clock, s.stamp, s.busy, s.generation, s.log.openedAt, t, event);
  }

  lemma ServiceIsNonNegative(c: Config, n: nat)
    requires c.Ok()
    ensures ServiceTime(c, n) >= 0.0
  {
    assert c.perItem * n as real >= 0.0;
    assert c.penalty * c.pressure >= 0.0;
  }

  /** Opening an epoch arms its timer and leaves the workers alone. */
  lemma StartEpochEffect(c: Config, s: State)
    requires c.Ok() && Settled(c, s)
    ensures var r := StartEpoch(c, s, s.clock);
            && Settled(c, r)
            && r.deadline == Some(s.clock + c.window)
            && Entry(s.clock + c.window, r.log.timer, EpochTimer(r.generation)) in r.queue
  {
    var due := if c.window > 0.0 then s.clock + c.window else s.clock;
    hide Insert, Timely, Staffed, Closed;
    PushCalendar(c, s.queue, s.clock, s.stamp, s.busy, s.generation + 1, s.clock, due, EpochTimer(s.generation + 1));
  }

  lemma BatchAppended(c: Config, s: State, reason: Reason, failure: Option<Mechanism>)
    requires Closed(c, s.log.batches)
    requires WellClosed(c, Batch(s.log.openedAt, s.clock, |s.epoch|, reason, None))
    ensures Closed(c, Close(s, s.clock, reason, failure).log.batches)
  {
  }

  /** A batch handed over while a worker is free is accepted. */
  lemma DispatchEffect(c: Config, s: State, reason: Reason, draw: real)
    requires c.Ok() && Settled(c, s) && s.log.openedAt <= s.clock
    requires s.epoch != [] && s.busy < c.workers
    requires WellClosed(c, Batch(s.log.openedAt, s.clock, |s.epoch|, reason, None))
    ensures var r := Dispatch(c, s, s.clock, reason, draw);
            && Orderly(c, r) && r.clock == s.clock && r.busy == s.busy + 1 && |r.log.batches| == |s.log.batches| + 1
  {
    hide Insert, Calendar, Record, Board, ServiceTime, Failure, Closed, WellClosed;
    var verdict := Verdict(c, s, s.clock, draw);
    var service := ServiceTime(c, |s.epoch|);
    BatchAppended(c, s, reason, verdict);
    ServiceIsNonNegative(c, |s.epoch|);
    if verdict.Some? {
      PushCalendar(c, s.queue, s.clock, s.stamp, s.busy, s.generation, s.log.openedAt, s.clock, ServerFailed(s.epoch));
    } else {
      PushCalendar(c, s.queue, s.clock, s.stamp, s.busy, s.generation, s.log.openedAt, s.clock + service, ServerDone(s.epoch, service));
    }
  }

  /** The freed worker takes from the backlog, or closes the open epoch early. */
  lemma RefillKeeps(c: Config, s: State, d: Draws)
    requires c.Ok() && Orderly(c, s) && s.busy < c.workers
    requires c.workers == 1 ==> s.epoch == []
    ensures Orderly(c, Refill(c, s, d))
  {
    if s.pending != [] {
      StartEpochEffect(c, s);
      var filled := Fill(c, StartEpoch(c, s, s.clock));
      if |filled.epoch| >= c.maxBatch {
        DispatchEffect(c, filled, BySize, d.lock);
      }
    } else if s.epoch != [] {
      OpenWindow(c, s);
      DispatchEffect(c, s, BySize, d.lock);
    }
  }

  /** An open epoch has not outlived its window. */
  lemma OpenWindow(c: Config, s: State)
    requires Orderly(c, s) && s.epoch != []
    ensures s.clock <= s.log.openedAt + c.window
  {
  }

  lemma DepartKeeps(c: Config, s: State, items: seq<Frame>, k: nat, hops: nat -> Hop)
    requires c.Ok() && Orderly(c, s) && k <= |items|
    ensures var r := Depart(c, s, items, k, hops);
            && Orderly(c, r) && r.clock == s.clock && r.busy == s.busy && r.epoch == s.epoch && r.pending == s.pending
  {
    hide Insert, Total, Settled, Armed, Open;
    if k > 0 {
      DepartKeeps(c, s, items, k - 1, hops);
      var t := Depart(c, s, items, k - 1, hops);
      var id := items[k - 1].id;
      var delay := Delay(c, hops(k - 1));
      var at := t.(log := t.log.(delays := t.log.delays[id := delay]));
      SameLedger(c, t, at);
      SameLedger(c, t, Lose(t, id));
      PushKeeps(c, at, t.clock + delay, Deliver(id));
    }
  }

  // --- the handlers ------------------------------------------------------

  lemma PlaceKeeps(c: Config, s: State, frame: Frame, d: Draws)
    requires c.Ok() && Orderly(c, s)
    ensures Orderly(c, Place(c, s, frame, d))
    ensures Place(c, s, frame, d).clock == s.clock
  {
    hide Insert, Calendar, Closed, Dispatch;
    if s.busy < c.workers {
      var open := if s.epoch == [] then StartEpoch(c, s, s.clock) else s;
      if s.epoch == [] {
        StartEpochEffect(c, s);
      } else {
        OpenWindow(c, s);
      }
      var joined := open.(epoch := open.epoch + [frame]);
      if |joined.epoch| >= c.maxBatch {
        DispatchEffect(c, joined, BySize, d.lock);
      }
    }
  }

  lemma ArrivalKeeps(c: Config, s: State, d: Draws)
    requires c.Ok() && Orderly(c, s) && d.gap >= 0.0
    ensures Orderly(c, OnArrival(c, s, d))
  {
    hide Insert, Total, Settled, Place;
    SameLedger(c, s, Capture(c, s));
    PlaceKeeps(c, Capture(c, s), Frame(s.clock, s.next), d);
    PushKeeps(c, Place(c, Capture(c, s), Frame(s.clock, s.next), d), s.clock + d.gap, Arrival);
  }

  lemma TimerKeeps(c: Config, s: State, generation: nat, d: Draws)
    requires c.Ok() && Settled(c, s) && Open(c, s)
    requires if generation == s.generation then s.clock == s.log.openedAt + c.window else Armed(c, s)
    ensures Orderly(c, OnTimer(c, s, generation, d))
  {
    if generation == s.generation && s.epoch != [] {
      DispatchEffect(c, s, ByWindow, d.lock);
    }
  }

  lemma DoneKeeps(c: Config, s: State, items: seq<Frame>, service: real, d: Draws)
    requires c.Ok() && Orderly(c, Release(s)) && Release(s).busy < c.workers
    requires c.workers == 1 ==> s.epoch == []
    ensures Orderly(c, OnDone(c, s, items, service, d))
  {
    hide Insert, Total, Settled, Depart, Refill;
    var worked := Credit(c, Release(s), service);
    SameLedger(c, Release(s), worked);
    DepartKeeps(c, worked, items, |items|, d.hops);
    RefillKeeps(c, Depart(c, worked, items, |items|, d.hops), d);
  }

  lemma ConsumeKeeps(c: Config, s: State)
    requires c.Ok() && Orderly(c, s)
    ensures Orderly(c, OnConsume(c, s))
  {
    hide Insert, Total, Settled, Armed, Open;
    SameLedger(c, s, Sample(c, s));
    PushKeeps(c, Sample(c, s), s.clock + c.period, Consume);
  }

  /** `heappop` returns the earliest entry and moves the clock forward. */
  lemma PopEffect(c: Config, s: State)
    requires c.Ok() && Orderly(c, s) && s.queue != []
    ensures var r := Pop(s);
            && s.clock <= r.clock && Timely(r.queue, r.clock, r.stamp)
            && Timed(c, r.queue, r.generation, r.log.openedAt) && Open(c, r)
            && r.busy == Total(r.queue, Servers) + Servers(s.queue[0])
            && 0 <= Total(r.queue, Servers)
            && (s.epoch != [] ==> r.clock <= s.log.openedAt + c.window)
            && ((s.queue[0].event.EpochTimer? && s.queue[0].event.generation == s.generation) || Armed(c, r))
  {
    var e := s.queue[0];
    assert e in s.queue;
    TotalNonNegative(s.queue[1..], Servers);
    if s.epoch != [] {
      var timer := Entry(s.log.openedAt + c.window, s.log.timer, EpochTimer(s.generation));
      assert timer == e || timer in s.queue[1..];
    }
  }

  /** What is left of the discipline once the next entry is taken off. */
  lemma PopKeeps(c: Config, s: State)
    requires c.Ok() && Orderly(c, s) && s.queue != []
    ensures var e, p := s.queue[0].event, Pop(s);
            && (e.Arrival? || e.Deliver? || e.Consume? ==> Orderly(c, p))
            && (e.EpochTimer? ==> Settled(c, p) && Open(c, p) && (if e.generation == p.generation then p.clock == p.log.openedAt + c.window else Armed(c, p)))
            && (e.ServerDone? || e.ServerFailed? ==>
                  Orderly(c, Release(p)) && Release(p).busy < c.workers && (c.workers == 1 ==> p.epoch == []))
  {
    hide Insert, Total, Closed, Sorted;
    PopEffect(c, s);
    assert s.queue[0] in s.queue;
  }

  /** Every event keeps the discipline, and the clock never runs backwards. */
  lemma StepKeeps(c: Config, s: State, d: Draws)
    requires c.Ok() && Orderly(c, s) && Live(c, s) && d.gap >= 0.0
    ensures Orderly(c, Step(c, s, d))
  {
    hide Insert, OnArrival, OnTimer, OnDone, OnConsume, OnDeliver, Refill, Orderly, Settled, Open, Armed;
    PopKeeps(c, s);
    var p := Pop(s);
    match s.queue[0].event
    case Arrival => ArrivalKeeps(c, p, d);
    case EpochTimer(generation) => TimerKeeps(c, p, generation, d);
    case ServerDone(items, service) => DoneKeeps(c, p, items, service, d);
    case ServerFailed(_) => RefillKeeps(c, Release(p), d);
    case Deliver(id) => DeliverKeeps(c, p, id);
    case Consume => ConsumeKeeps(c, p);
  }

  lemma DeliverKeeps(c: Config, s: State, id: nat)
    requires Orderly(c, s)
    ensures Orderly(c, OnDeliver(c, s, id))
  {
    hide OnDeliver, Settled, Open, Armed;
    DeliverTouches(c, s, id);
    SameLedger(c, s, OnDeliver(c, s, id));
  }

  lemma StartIsOrderly(c: Config, gap: real)
    requires c.Ok() && gap >= 0.0
    ensures Orderly(c, Start(c, gap))
  {
    var s := Start(c, gap).(queue := [], stamp := 0);
    assert Settled(c, s);
    PushKeeps(c, s, gap, Arrival);
    PushKeeps(c, Push(s, gap, Arrival), 0.0, Consume);
  }

  /** Every reachable state is orderly. */
  lemma {:induction false} RunIsOrderly(c: Config, draws: nat -> Draws, n: nat)
    requires c.Ok() && Proper(draws)
    ensures Orderly(c, Run(c, draws, n))
  {
    hide Step, Start, Orderly;
    if n == 0 {
      StartIsOrderly(c, draws(0).gap);
    } else {
      RunIsOrderly(c, draws, n - 1);
      if Live(c, Run(c, draws, n - 1)) {
        StepKeeps(c, Run(c, draws, n - 1), draws(n));
      }
    }
  }

  // --- what follows for every run -------------------------------------------

  /** A nonempty epoch is never refused: it has a free worker, room, and a timer that has not yet fired. */
  lemma OpenEpochIsServable(c: Config, draws: nat -> Draws, n: nat)
    requires c.Ok() && Proper(draws) && Run(c, draws, n).epoch != []
    ensures var s := Run(c, draws, n);
            && s.busy < c.workers && |s.epoch| < c.maxBatch
            && s.log.openedAt <= s.clock <= s.log.openedAt + c.window
            && Entry(s.log.openedAt + c.window, s.log.timer, EpochTimer(s.generation)) in s.queue
  {
    hide Run, Calendar;
    RunIsOrderly(c, draws, n);
    assert OpenInTime(c, Run(c, draws, n)) by {
      OpenWindow(c, Run(c, draws, n));
    }
  }

  ghost predicate OpenInTime(c: Config, s: State) {
    s.clock <= s.log.openedAt + c.window
  }

  /** Every batch ever dispatched left its epoch in time, no fuller than allowed, and for the recorded reason. */
  lemma EveryBatchIsWellClosed(c: Config, draws: nat -> Draws, n: nat, b: Batch)
    requires c.Ok() && Proper(draws) && b in Run(c, draws, n).log.batches
    ensures WellClosed(c, b)
  {
    hide Run, Calendar;
    RunIsOrderly(c, draws, n);
  }

  /** When a worker reports back there is one to release, so the floor at zero never acts. */
  lemma ReleaseNeverClamps(c: Config, draws: nat -> Draws, n: nat)
    requires c.Ok() && Proper(draws) && Live(c, Run(c, draws, n))
    requires Servers(Run(c, draws, n).queue[0]) == 1
    ensures 1 <= Run(c, draws, n).busy <= c.workers
    ensures Release(Run(c, draws, n)).busy == Run(c, draws, n).busy - 1
  {
    hide Run;
    RunIsOrderly(c, draws, n);
    PopEffect(c, Run(c, draws, n));
  }

  /** Events are handled in order of time. */
  lemma ClockNeverRunsBackwards(c: Config, draws: nat -> Draws, n: nat)
    requires c.Ok() && Proper(draws)
    ensures Run(c, draws, n).clock <= Run(c, draws, n + 1).clock
  {
    hide Insert, Place, Refill, Depart, Dispatch, Sample, OnDeliver, Orderly;
    var s := Run(c, draws, n);
    RunIsOrderly(c, draws, n);
    if Live(c, s) {
      PopEffect(c, s);
      StepClock(c, s, draws(n + 1));
    }
  }
}
