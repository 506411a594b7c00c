/**
 Termination of the event loop: when the gaps between arrivals are bounded below, a potential
 over remaining arrivals, remaining consumer ticks, queued frames and outstanding events falls
 at every event, however many failures cascade at one instant. When they are all zero it never stops.
 */
module Termination {
  import opened Events
  import opened Pipeline
  import opened Discipline
  import opened Effects

  /** How many events `step` apart fit in the next `x` seconds, the first of them now. */
  function Left(x: real, step: real): nat
    requires step > 0.0
  {
    if x < 0.0 then 0
    else
      assert x / step >= 0.0;
      (x / step).Floor + 1
  }

  lemma LeftFalls(x: real, step: real, gap: real)
    requires step > 0.0 && x >= 0.0 && gap >= step
    ensures Left(x - gap, step) + 1 <= Left(x, step)
  {
    if x - gap >= 0.0 {
      QuotientFalls((x - gap) / step, x / step, step, x, gap);
    }
  }

  lemma QuotientFalls(a: real, b: real, step: real, x: real, gap: real)
    requires step > 0.0 && gap >= step && a * step == x - gap && b * step == x
    ensures a <= b - 1.0
  {
    var excess := a - b + 1.0;
    assert excess * step == (a - b) * step + 1.0 * step;
    assert (a - b) * step == a * step - b * step;
    if excess > 0.0 {
      Positive(excess, step);
    }
  }

  lemma Positive(a: real, b: real)
    requires a > 0.0 && b > 0.0
    ensures a * b > 0.0
  {
  }

  function Cost(c: Config, gap: real): Entry -> int
    requires c.period > 0.0 && gap > 0.0
  {
    (e: Entry) =>
      match e.event
      case Arrival => 5 * Left(c.end - e.time, gap)
      case Consume => Left(c.end - e.time, c.period)
      case ServerDone(items, _) => 2 * |items| + 1
      case ServerFailed(items) => 2 * |items| + 1
      case EpochTimer(_) => 1
      case Deliver(_) => 1
  }

  function Potential(c: Config, gap: real, s: State): int
    requires c.period > 0.0 && gap > 0.0
  {
    Total(s.queue, Cost(c, gap)) + 4 * |s.pending| + 3 * |s.epoch|
  }

  lemma PushPotential(c: Config, gap: real, s: State, t: real, event: Event)
    requires c.Ok() && gap > 0.0
    ensures Potential(c, gap, Push(s, t, event)) == Potential(c, gap, s) + Cost(c, gap)(Entry(t, s.stamp + 1, event))
  {
    hide Insert, Total, Cost;
    InsertTotal(s.queue, Entry(t, s.stamp + 1, event), Cost(c, gap));
  }

  lemma StartEpochPotential(c: Config, gap: real, s: State)
    requires c.Ok() && gap > 0.0
    ensures Potential(c, gap, StartEpoch(c, s, s.clock)) == Potential(c, gap, s) + 1 - 3 * |s.epoch|
  {
    hide Insert, Total;
    var due := if c.window > 0.0 then s.clock + c.window else s.clock;
    PushPotential(c, gap, Reopen(s, s.clock, due), due, EpochTimer(s.generation + 1));
  }

  lemma DispatchPotential(c: Config, gap: real, s: State, reason: Reason, draw: real)
    requires c.Ok() && gap > 0.0
    ensures Potential(c, gap, Dispatch(c, s, s.clock, reason, draw)) <= Potential(c, gap, s)
  {
    hide Insert, Total, Record, Board, Verdict, ServiceTime;
    if s.epoch != [] && s.busy < c.workers {
      var verdict := Verdict(c, s, s.clock, draw);
      var closed := Close(s, s.clock, reason, verdict);
      match verdict {
        case Some(m) => PushPotential(c, gap, MarkFailed(closed, s.epoch, m), s.clock, ServerFailed(s.epoch));
        case None =>
          var lockWait, service := LockWait(c, draw), ServiceTime(c, |s.epoch|);
          PushPotential(c, gap, MarkServed(closed, s.epoch, s.clock, reason, lockWait, service), s.clock + service, ServerDone(s.epoch, service));
      }
    }
  }

  lemma PlacePotential(c: Config, gap: real, s: State, frame: Frame, d: Draws)
    requires c.Ok() && gap > 0.0
    ensures Potential(c, gap, Place(c, s, frame, d)) <= Potential(c, gap, s) + 4
  {
    hide Insert, Total, StartEpoch, Dispatch;
    var open := if s.epoch == [] then StartEpoch(c, s, s.clock) else s;
    StartEpochPotential(c, gap, s);
    StartEpochTouches(c, s, s.clock);
    DispatchPotential(c, gap, open.(epoch := open.epoch + [frame]), BySize, d.lock);
  }

  lemma RefillPotential(c: Config, gap: real, s: State, d: Draws)
    requires c.Ok() && gap > 0.0
    ensures Potential(c, gap, Refill(c, s, d)) <= Potential(c, gap, s)
  {
    hide Insert, Total, StartEpoch, Dispatch;
    StartEpochPotential(c, gap, s);
    StartEpochTouches(c, s, s.clock);
    DispatchPotential(c, gap, Fill(c, StartEpoch(c, s, s.clock)), BySize, d.lock);
    DispatchPotential(c, gap, s, BySize, d.lock);
  }

  lemma {:induction false} DepartPotential(c: Config, gap: real, s: State, items: seq<Frame>, k: nat, hops: nat -> Hop)
    requires c.Ok() && gap > 0.0 && k <= |items|
    ensures Potential(c, gap, Depart(c, s, items, k, hops)) <= Potential(c, gap, s) + k
  {
    hide Insert, Total, Delay;
    if k > 0 {
      DepartPotential(c, gap, s, items, k - 1, hops);
      var t := Depart(c, s, items, k - 1, hops);
      var id, delay := items[k - 1].id, Delay(c, hops(k - 1));
      PushPotential(c, gap, t.(log := t.log.(delays := t.log.delays[id := delay])), t.clock + delay, Deliver(id));
    }
  }

  lemma PopPotential(c: Config, gap: real, s: State)
    requires c.Ok() && gap > 0.0 && s.queue != []
    ensures Potential(c, gap, Pop(s)) == Potential(c, gap, s) - Cost(c, gap)(s.queue[0])
  {
    hide Cost;
  }

  /** Every event lowers the potential. */
  lemma StepFalls(c: Config, gap: real, s: State, d: Draws)
    requires c.Ok() && gap > 0.0 && Live(c, s) && (s.queue[0].event.Arrival? ==> d.gap >= gap)
    ensures Potential(c, gap, Step(c, s, d)) < Potential(c, gap, s)
  {
    hide Insert, Total, Place, Refill, Depart, Dispatch, Sample, OnDeliver, Left;
    PopPotential(c, gap, s);
    var p := Pop(s);
    match s.queue[0].event
    case Arrival =>
      PlacePotential(c, gap, Capture(c, p), Frame(p.clock, p.next), d);
      PushPotential(c, gap, Place(c, Capture(c, p), Frame(p.clock, p.next), d), p.clock + d.gap, Arrival);
      LeftFalls(c.end - p.clock, gap, d.gap);
      assert c.end - p.clock - d.gap == c.end - (p.clock + d.gap);
    case EpochTimer(_) => DispatchPotential(c, gap, p, ByWindow, d.lock);
    case ServerDone(items, service) =>
      DepartPotential(c, gap, Credit(c, Release(p), service), items, |items|, d.hops);
      DepartTouches(c, Credit(c, Release(p), service), items, |items|, d.hops);
      RefillPotential(c, gap, Depart(c, Credit(c, Release(p), service), items, |items|, d.hops), d);
    case ServerFailed(_) => RefillPotential(c, gap, Release(p), d);
    case Deliver(id) => DeliverTouches(c, p, id);
    case Consume =>
      SampleTouches(c, p);
      PushPotential(c, gap, Sample(c, p), p.clock + c.period, Consume);
      LeftFalls(c.end - p.clock, c.period, c.period);
      assert c.end - p.clock - c.period == c.end - (p.clock + c.period);
  }

  lemma PotentialIsNonNegative(c: Config, gap: real, s: State)
    requires c.Ok() && gap > 0.0
    ensures Potential(c, gap, s) >= 0
  {
    TotalNonNegative(s.queue, Cost(c, gap));
  }

  /** An explicit bound on the number of events. */
  function Bound(c: Config, gap: real, first: real): nat
    requires c.period > 0.0 && gap > 0.0
  {
    5 * Left(c.end - first, gap) + Left(c.end, c.period) + 4 * c.backlog
  }

  lemma StartPotential(c: Config, gap: real, first: real)
    requires c.Ok() && gap > 0.0
    ensures Potential(c, gap, Start(c, first)) == Bound(c, gap, first)
  {
    hide Insert, Left;
    var s := Start(c, first).(queue := [], stamp := 0);
    PushPotential(c, gap, s, first, Arrival);
    PushPotential(c, gap, Push(s, first, Arrival), 0.0, Consume);
  }

  lemma {:induction false} LiveRunIsShort(c: Config, gap: real, draws: nat -> Draws, n: nat)
    requires c.Ok() && gap > 0.0 && (forall k :: draws(k).gap >= gap) && Live(c, Run(c, draws, n))
    ensures Potential(c, gap, Run(c, draws, n)) + n <= Bound(c, gap, draws(0).gap)
  {
    hide Step, Start, Potential, Bound;
    if n == 0 {
      StartPotential(c, gap, draws(0).gap);
    } else {
      LiveRunIsShort(c, gap, draws, n - 1);
      StepFalls(c, gap, Run(c, draws, n - 1), draws(n));
    }
  }

  /** The loop stops after at most `Bound` events. */
  lemma Stops(c: Config, gap: real, draws: nat -> Draws, n: nat)
    requires c.Ok() && gap > 0.0 && forall k :: draws(k).gap >= gap
    requires n > Bound(c, gap, draws(0).gap)
    ensures !Live(c, Run(c, draws, n))
  {
    hide Run, Potential, Bound;
    if Live(c, Run(c, draws, n)) {
      LiveRunIsShort(c, gap, draws, n);
      PotentialIsNonNegative(c, gap, Run(c, draws, n));
    }
  }

  // --- gaps that are not bounded below ---------------------------------------

  /** An arrival is due at time zero. */
  ghost predicate Stuck(s: State) {
    exists e :: e in s.queue && e.event.Arrival? && e.time == 0.0
  }

  ghost predicate Keeps(q: seq<Entry>, r: seq<Entry>) {
    forall e :: e in q ==> e in r
  }

  lemma PushKeepsEntries(s: State, t: real, event: Event)
    ensures Keeps(s.queue, Push(s, t, event).queue) && Entry(t, s.stamp + 1, event) in Push(s, t, event).queue
  {
    hide Insert;
    InsertMembers(s.queue, Entry(t, s.stamp + 1, event));
  }

  lemma StartEpochKeepsEntries(c: Config, s: State)
    ensures Keeps(s.queue, StartEpoch(c, s, s.clock).queue)
  {
    hide Insert;
    var due := if c.window > 0.0 then s.clock + c.window else s.clock;
    PushKeepsEntries(Reopen(s, s.clock, due), due, EpochTimer(s.generation + 1));
  }

  lemma DispatchKeepsEntries(c: Config, s: State, reason: Reason, draw: real)
    ensures Keeps(s.queue, Dispatch(c, s, s.clock, reason, draw).queue)
  {
    hide Insert, Record, Board, Verdict, ServiceTime;
    var service := ServiceTime(c, |s.epoch|);
    InsertMembers(s.queue, Entry(s.clock, s.stamp + 1, ServerFailed(s.epoch)));
    InsertMembers(s.queue, Entry(s.clock + service, s.stamp + 1, ServerDone(s.epoch, service)));
  }

  lemma PlaceKeepsEntries(c: Config, s: State, frame: Frame, d: Draws)
    ensures Keeps(s.queue, Place(c, s, frame, d).queue)
  {
    hide StartEpoch, Dispatch;
    var open := if s.epoch == [] then StartEpoch(c, s, s.clock) else s;
    StartEpochKeepsEntries(c, s);
    StartEpochTouches(c, s, s.clock);
    DispatchKeepsEntries(c, open.(epoch := open.epoch + [frame]), BySize, d.lock);
  }

  lemma RefillKeepsEntries(c: Config, s: State, d: Draws)
    ensures Keeps(s.queue, Refill(c, s, d).queue)
  {
    hide StartEpoch, Dispatch;
    StartEpochKeepsEntries(c, s);
    StartEpochTouches(c, s, s.clock);
    DispatchKeepsEntries(c, Fill(c, StartEpoch(c, s, s.clock)), BySize, d.lock);
    DispatchKeepsEntries(c, s, BySize, d.lock);
  }

  lemma {:induction false} DepartKeepsEntries(c: Config, s: State, items: seq<Frame>, k: nat, hops: nat -> Hop)
    requires k <= |items|
    ensures Keeps(s.queue, Depart(c, s, items, k, hops).queue)
  {
    hide Insert, Delay;
    if k > 0 {
      DepartKeepsEntries(c, s, items, k - 1, hops);
      var t := Depart(c, s, items, k - 1, hops);
      InsertMembers(t.queue, Entry(t.clock + Delay(c, hops(k - 1)), t.stamp + 1, Deliver(items[k - 1].id)));
    }
  }

  /** An event removes only its own entry. */
  lemma StepKeepsEntries(c: Config, s: State, d: Draws)
    requires Live(c, s)
    ensures Keeps(s.queue[1..], Step(c, s, d).queue)
    ensures s.queue[0].event.Arrival? ==>
              exists e :: e in Step(c, s, d).queue && e.event.Arrival? && e.time == s.queue[0].time + d.gap
  {
    hide Insert, Place, Refill, Depart, Dispatch, Sample, OnDeliver;
    var p := Pop(s);
    match s.queue[0].event
    case Arrival =>
      PlaceKeepsEntries(c, Capture(c, p), Frame(p.clock, p.next), d);
      PushKeepsEntries(Place(c, Capture(c, p), Frame(p.clock, p.next), d), p.clock + d.gap, Arrival);
    case EpochTimer(_) => DispatchKeepsEntries(c, p, ByWindow, d.lock);
    case ServerDone(items, service) =>
      DepartKeepsEntries(c, Credit(c, Release(p), service), items, |items|, d.hops);
      RefillKeepsEntries(c, Depart(c, Credit(c, Release(p), service), items, |items|, d.hops), d);
    case ServerFailed(_) => RefillKeepsEntries(c, Release(p), d);
    case Deliver(id) => DeliverTouches(c, p, id);
    case Consume =>
      SampleTouches(c, p);
      PushKeepsEntries(Sample(c, p), p.clock + c.period, Consume);
  }

  /** Without a lower bound on the gaps the loop need not stop: with zero gaps it never does. */
  lemma {:induction false} ZeroGapsNeverStop(c: Config, draws: nat -> Draws, n: nat)
    requires c.Ok() && c.end >= 0.0 && forall k :: draws(k).gap == 0.0
    ensures Live(c, Run(c, draws, n)) && Stuck(Run(c, draws, n)) && Run(c, draws, n).clock == 0.0
  {
    hide Insert, Step, Live, Orderly;
    if n == 0 {
      var s := Start(c, 0.0).(queue := [], stamp := 0);
      PushKeepsEntries(s, 0.0, Arrival);
      PushKeepsEntries(Push(s, 0.0, Arrival), 0.0, Consume);
    } else {
      var s := Run(c, draws, n - 1);
      ZeroGapsNeverStop(c, draws, n - 1);
      RunIsOrderly(c, draws, n - 1);
      StuckIsNow(c, s);
      StepKeepsEntries(c, s, draws(n));
      StepClock(c, s, draws(n));
    }
    RunIsOrderly(c, draws, n);
    StuckIsNow(c, Run(c, draws, n));
  }

  lemma StuckIsNow(c: Config, s: State)
    requires Orderly(c, s) && Stuck(s) && s.clock == 0.0 && c.end >= 0.0
    ensures Live(c, s) && s.queue[0].time == 0.0
    ensures !s.queue[0].event.Arrival? ==> exists e :: e in s.queue[1..] && e.event.Arrival? && e.time == 0.0
  {
    var e :| e in s.queue && e.event.Arrival? && e.time == 0.0;
    assert s.queue[0] in s.queue;
    assert e == s.queue[0] || e in s.queue[1..];
  }
}
