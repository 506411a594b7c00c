/**
 First in, first out. With no initial backlog, the frames dispatched so far, then the open epoch,
 then the backlog, are exactly the frames created, in the order of their creation, for any number
 of workers. From this, and from the worker discipline, it follows when no frame ever vanishes.
 */
module Fifo {
  import opened Events
  import opened Pipeline
  import opened Discipline
  import opened Effects
  import opened Conservation

  ghost function Line(s: State): seq<nat> {
    s.log.dispatched + Ids(s.epoch) + Ids(s.pending)
  }

  /** A backlog builds up only while every worker is busy. */
  ghost predicate Lined(c: Config, s: State) {
    && (s.pending != [] ==> s.busy >= c.workers)
    && Line(s) == Iota(s.next)
  }

  lemma DispatchLine(c: Config, s: State, now: real, reason: Reason, draw: real)
    requires s.busy < c.workers
    ensures var r := Dispatch(c, s, now, reason, draw);
            Line(r) == Line(s) && r.pending == s.pending && r.next == s.next && r.busy == s.busy + (if s.epoch == [] then 0 else 1)
  {
    hide Dispatch;
    DispatchTouches(c, s, now, reason, draw);
    assert Ids([]) == [];
  }

  lemma PlaceLined(c: Config, s: State, frame: Frame, d: Draws)
    requires s.busy >= c.workers ==> s.epoch == []
    requires s.pending != [] ==> s.busy >= c.workers
    requires Line(s) + [frame.id] == Iota(s.next)
    ensures Lined(c, Place(c, s, frame, d))
  {
    hide Dispatch, StartEpoch;
    var open := if s.epoch == [] then StartEpoch(c, s, s.clock) else s;
    StartEpochTouches(c, s, s.clock);
    IdsOfConcatenation(s.pending, [frame]);
    IdsOfConcatenation(open.epoch, [frame]);
    assert Ids([frame]) == [frame.id] && Ids([]) == [];
    if s.busy < c.workers {
      DispatchLine(c, open.(epoch := open.epoch + [frame]), s.clock, BySize, d.lock);
    }
  }

  lemma RefillLined(c: Config, s: State, d: Draws)
    requires c.Ok() && s.busy < c.workers && Line(s) == Iota(s.next)
    requires s.pending != [] ==> s.epoch == [] && s.busy == c.workers - 1
    ensures Lined(c, Refill(c, s, d))
  {
    hide Dispatch, StartEpoch;
    var open := StartEpoch(c, s, s.clock);
    StartEpochTouches(c, s, s.clock);
    var filled := Fill(c, open);
    assert Ids([]) == [];
    if s.pending != [] {
      IdsOfConcatenation(filled.epoch, filled.pending);
      assert filled.epoch + filled.pending == s.pending;
      DispatchLine(c, filled, s.clock, BySize, d.lock);
    } else {
      DispatchLine(c, s, s.clock, BySize, d.lock);
    }
  }

  lemma ArrivalLined(c: Config, s: State, d: Draws)
    requires Lined(c, s) && (s.busy >= c.workers ==> s.epoch == [])
    ensures Lined(c, OnArrival(c, s, d))
  {
    hide Insert, Place, Ids;
    assert Iota(s.next + 1) == Iota(s.next) + [s.next];
    PlaceLined(c, Capture(c, s), Frame(s.clock, s.next), d);
  }

  lemma TimerLined(c: Config, s: State, d: Draws)
    requires Lined(c, s)
    ensures Lined(c, Dispatch(c, s, s.clock, ByWindow, d.lock))
  {
    hide Ids, Iota;
    if s.busy < c.workers {
      DispatchLine(c, s, s.clock, ByWindow, d.lock);
    }
  }

  lemma DoneLined(c: Config, s: State, items: seq<Frame>, service: real, d: Draws)
    requires c.Ok() && Lined(c, s) && 1 <= s.busy <= c.workers && (s.busy >= c.workers ==> s.epoch == [])
    ensures Lined(c, OnDone(c, s, items, service, d))
  {
    hide Insert, Refill, Depart, Ids, Iota;
    var worked := Credit(c, Release(s), service);
    DepartTouches(c, worked, items, |items|, d.hops);
    RefillLined(c, Depart(c, worked, items, |items|, d.hops), d);
  }

  lemma FailedLined(c: Config, s: State, d: Draws)
    requires c.Ok() && Lined(c, s) && 1 <= s.busy <= c.workers && (s.busy >= c.workers ==> s.epoch == [])
    ensures Lined(c, OnFailed(c, s, d))
  {
    hide Insert, Refill, Ids, Iota;
    RefillLined(c, Release(s), d);
  }

  lemma ConsumeLined(c: Config, s: State)
    requires Lined(c, s)
    ensures Lined(c, OnConsume(c, s))
  {
    hide Insert, Sample, Ids, Iota;
    SampleTouches(c, s);
  }

  lemma DeliverLined(c: Config, s: State, id: nat)
    requires Lined(c, s)
    ensures Lined(c, OnDeliver(c, s, id))
  {
    hide OnDeliver, Ids, Iota;
    DeliverTouches(c, s, id);
  }

  lemma PopLined(c: Config, s: State)
    requires Lined(c, s) && s.queue != []
    ensures Lined(c, Pop(s))
  {
    hide Ids, Iota;
  }

  lemma StepLined(c: Config, s: State, d: Draws)
    requires c.Ok() && Orderly(c, s) && Lined(c, s) && Live(c, s)
    ensures Lined(c, Step(c, s, d))
    ensures !Overwrites(s)
  {
    hide Insert, OnArrival, OnDone, OnFailed, OnConsume, OnDeliver, Dispatch, Calendar, Closed, Armed, Ids, Iota, Total;
    PopEffect(c, s);
    PopLined(c, s);
    StaffedBound(c, s);
    var p := Pop(s);
    match s.queue[0].event
    case Arrival => ArrivalLined(c, p, d);
    case EpochTimer(_) => TimerLined(c, p, d);
    case ServerDone(items, service) => DoneLined(c, p, items, service, d);
    case ServerFailed(_) => FailedLined(c, p, d);
    case Deliver(id) => DeliverLined(c, p, id);
    case Consume => ConsumeLined(c, p);
  }

  lemma StaffedBound(c: Config, s: State)
    requires Orderly(c, s)
    ensures s.busy <= c.workers
  {
  }

  lemma StartLined(c: Config, gap: real)
    requires c.Ok() && c.backlog == 0
    ensures Lined(c, Start(c, gap))
  {
    hide Insert;
    assert Ids([]) == [] && Iota(0) == [];
  }

  /** FIFO batching over whole runs, for any number of workers. */
  lemma {:induction false} RunIsFifo(c: Config, draws: nat -> Draws, n: nat)
    requires c.Ok() && Proper(draws) && c.backlog == 0
    ensures Lined(c, Run(c, draws, n))
  {
    hide Step, Start, Lined, Orderly;
    if n == 0 {
      StartLined(c, draws(0).gap);
    } else {
      RunIsFifo(c, draws, n - 1);
      RunIsOrderly(c, draws, n - 1);
      if Live(c, Run(c, draws, n - 1)) {
        StepLined(c, Run(c, draws, n - 1), draws(n));
      }
    }
  }

  /** The guard of the overwriting branch is never met with one worker, with batches of one, or with no initial backlog. */
  lemma NeverOverwrites(c: Config, draws: nat -> Draws, n: nat)
    requires c.Ok() && Proper(draws) && Live(c, Run(c, draws, n))
    requires c.workers == 1 || c.maxBatch == 1 || c.backlog == 0
    ensures !Overwrites(Run(c, draws, n))
  {
    hide Insert, Step, Start, Calendar, Closed, Lined;
    var s := Run(c, draws, n);
    RunIsOrderly(c, draws, n);
    PopEffect(c, s);
    if c.backlog == 0 {
      RunIsFifo(c, draws, n);
      StepLined(c, s, draws(n));
    }
  }

  /** In those configurations no frame ever vanishes. */
  lemma {:induction false} NothingVanishes(c: Config, draws: nat -> Draws, n: nat)
    requires c.Ok() && Proper(draws)
    requires c.workers == 1 || c.maxBatch == 1 || c.backlog == 0
    ensures Run(c, draws, n).log.vanished == []
  {
    hide Insert, Step, Overwrites;
    if n > 0 {
      NothingVanishes(c, draws, n - 1);
      var s := Run(c, draws, n - 1);
      if Live(c, s) {
        NeverOverwrites(c, draws, n - 1);
        StepVanishes(c, s, draws(n));
      }
    }
  }
}
