/**
 When the event loop stops. Exactly one arrival is outstanding at any time; the loop stops exactly
 when the gaps drawn at its arrivals add up to more than the run lasts, whatever they are.
 */
module Arrivals {
  import opened Events
  import opened Pipeline
  import opened Discipline
  import opened Effects
  import opened Termination

  /** A count that only arrivals and consumer ticks contribute to. */
  ghost predicate Blind(f: Entry -> int) {
    forall e: Entry :: !e.event.Arrival? && !e.event.Consume? ==> f(e) == 0
  }

  ghost function AnyArrival(): Entry -> int {
    (e: Entry) => if e.event.Arrival? then 1 else 0
  }

  ghost function LateArrival(c: Config): Entry -> int {
    (e: Entry) => if e.event.Arrival? && e.time > c.end then 1 else 0
  }

  ghost function DueArrival(c: Config): Entry -> int {
    (e: Entry) => if e.event.Arrival? && e.time <= c.end then 1 else 0
  }

  lemma PushBlind(s: State, t: real, event: Event, f: Entry -> int)
    requires Blind(f)
    ensures Total(Push(s, t, event).queue, f) == Total(s.queue, f) + if event.Arrival? || event.Consume? then f(Entry(t, s.stamp + 1, event)) else 0
  {
    hide Insert, Total;
    InsertTotal(s.queue, Entry(t, s.stamp + 1, event), f);
  }

  lemma StartEpochBlind(c: Config, s: State, f: Entry -> int)
    requires Blind(f)
    ensures Total(StartEpoch(c, s, s.clock).queue, f) == Total(s.queue, f)
  {
    hide Insert, Total, Blind;
    var due := if c.window > 0.0 then s.clock + c.window else s.clock;
    PushBlind(Reopen(s, s.clock, due), due, EpochTimer(s.generation + 1), f);
  }

  lemma DispatchBlind(c: Config, s: State, reason: Reason, draw: real, f: Entry -> int)
    requires Blind(f)
    ensures Total(Dispatch(c, s, s.clock, reason, draw).queue, f) == Total(s.queue, f)
  {
    hide Insert, Total, Record, Board, Verdict, ServiceTime, LockWait, Push, Blind;
    if s.epoch != [] && s.busy < c.workers {
      var verdict := Verdict(c, s, s.clock, draw);
      var closed := Close(s, s.clock, reason, verdict);
      if verdict.Some? {
        PushBlind(MarkFailed(closed, s.epoch, verdict.value), s.clock, ServerFailed(s.epoch), f);
      } else {
        var service := ServiceTime(c, |s.epoch|);
        PushBlind(MarkServed(closed, s.epoch, s.clock, reason, LockWait(c, draw), service), s.clock + service, ServerDone(s.epoch, service), f);
      }
    }
  }

  lemma PlaceBlind(c: Config, s: State, frame: Frame, d: Draws, f: Entry -> int)
    requires Blind(f)
    ensures Total(Place(c, s, frame, d).queue, f) == Total(s.queue, f)
  {
    hide StartEpoch, Dispatch, Total, Blind;
    var open := if s.epoch == [] then StartEpoch(c, s, s.clock) else s;
    StartEpochTouches(c, s, s.clock);
    StartEpochBlind(c, s, f);
    DispatchBlind(c, open.(epoch := open.epoch + [frame]), BySize, d.lock, f);
  }

  lemma RefillBlind(c: Config, s: State, d: Draws, f: Entry -> int)
    requires Blind(f)
    ensures Total(Refill(c, s, d).queue, f) == Total(s.queue, f)
  {
    hide StartEpoch, Dispatch, Total, Blind;
    StartEpochTouches(c, s, s.clock);
    StartEpochBlind(c, s, f);
    DispatchBlind(c, Fill(c, StartEpoch(c, s, s.clock)), BySize, d.lock, f);
    DispatchBlind(c, s, BySize, d.lock, f);
  }

  lemma {:induction false} DepartBlind(c: Config, s: State, items: seq<Frame>, k: nat, hops: nat -> Hop, f: Entry -> int)
    requires Blind(f) && k <= |items|
    ensures Total(Depart(c, s, items, k, hops).queue, f) == Total(s.queue, f)
  {
    hide Insert, Total, Delay, Push, Blind;
    if k > 0 {
      DepartBlind(c, s, items, k - 1, hops, f);
      var t := Depart(c, s, items, k - 1, hops);
      var delay := Delay(c, hops(k - 1));
      PushBlind(t.(log := t.log.(delays := t.log.delays[items[k - 1].id := delay])), t.clock + delay, Deliver(items[k - 1].id), f);
    }
  }

  /** The handling of an arrival replaces it by the next one. */
  lemma ArrivalBlind(c: Config, s: State, d: Draws, f: Entry -> int)
    requires Blind(f)
    ensures var r := OnArrival(c, s, d);
            Total(r.queue, f) == Total(s.queue, f) + f(Entry(s.clock + d.gap, r.stamp, Arrival))
  {
    hide Insert, Place, Total, Blind;
    var placed := Place(c, Capture(c, s), Frame(s.clock, s.next), d);
    PlaceTouches(c, Capture(c, s), Frame(s.clock, s.next), d);
    PlaceBlind(c, Capture(c, s), Frame(s.clock, s.next), d, f);
    PushBlind(placed, s.clock + d.gap, Arrival, f);
  }

  lemma DoneBlind(c: Config, s: State, items: seq<Frame>, service: real, d: Draws, f: Entry -> int)
    requires Blind(f)
    ensures Total(OnDone(c, s, items, service, d).queue, f) == Total(s.queue, f)
  {
    hide Insert, Refill, Depart, Total, Blind;
    var worked := Credit(c, Release(s), service);
    DepartTouches(c, worked, items, |items|, d.hops);
    DepartBlind(c, worked, items, |items|, d.hops, f);
    RefillBlind(c, Depart(c, worked, items, |items|, d.hops), d, f);
  }

  lemma ConsumeBlind(c: Config, s: State, f: Entry -> int)
    requires Blind(f)
    ensures var r := OnConsume(c, s); Total(r.queue, f) == Total(s.queue, f) + f(Entry(s.clock + c.period, r.stamp, Consume))
  {
    hide Insert, Sample, Total, Blind;
    SampleTouches(c, s);
    PushBlind(Sample(c, s), s.clock + c.period, Consume, f);
  }

  /** No other event touches the outstanding arrivals and ticks. */
  lemma StepBlind(c: Config, s: State, d: Draws, f: Entry -> int)
    requires Live(c, s) && Blind(f)
    ensures var e, r := s.queue[0], Step(c, s, d);
            Total(r.queue, f) == Total(s.queue, f) - f(e)
              + (if e.event.Arrival? then f(Entry(e.time + d.gap, r.stamp, Arrival)) else 0)
              + if e.event.Consume? then f(Entry(e.time + c.period, r.stamp, Consume)) else 0
  {
    hide Insert, OnArrival, OnDone, OnConsume, Refill, Dispatch, OnDeliver;
    var p := Pop(s);
    match s.queue[0].event
    case Arrival => ArrivalBlind(c, p, d, f);
    case EpochTimer(_) => DispatchBlind(c, p, ByWindow, d.lock, f);
    case ServerDone(items, service) => DoneBlind(c, p, items, service, d, f);
    case ServerFailed(_) => RefillBlind(c, Release(p), d, f);
    case Deliver(id) => DeliverTouches(c, p, id);
    case Consume => ConsumeBlind(c, p, f);
  }

  lemma StartBlind(c: Config, gap: real, f: Entry -> int)
    requires Blind(f)
    ensures Total(Start(c, gap).queue, f) == f(Entry(gap, 1, Arrival)) + f(Entry(0.0, 2, Consume))
  {
    hide Insert, Blind;
    var s := Start(c, gap).(queue := [], stamp := 0);
    PushBlind(s, gap, Arrival, f);
    PushBlind(Push(s, gap, Arrival), 0.0, Consume, f);
  }

  /** Exactly one arrival is outstanding after every event. */
  lemma {:induction false} OneArrival(c: Config, draws: nat -> Draws, n: nat)
    ensures Total(Run(c, draws, n).queue, AnyArrival()) == 1
  {
    hide Step, Start, Total;
    if n == 0 {
      StartBlind(c, draws(0).gap, AnyArrival());
    } else {
      OneArrival(c, draws, n - 1);
      if Live(c, Run(c, draws, n - 1)) {
        StepBlind(c, Run(c, draws, n - 1), draws(n), AnyArrival());
      }
    }
  }

  // --- the gaps drawn so far ------------------------------------------------------------

  /** The sum of the gaps drawn by `n` events: the first one, and one at every arrival. */
  function GapsDrawn(c: Config, draws: nat -> Draws, n: nat): real {
    if n == 0 then draws(0).gap
    else
      var s := Run(c, draws, n - 1);
      GapsDrawn(c, draws, n - 1) + if Live(c, s) && s.queue[0].event.Arrival? then draws(n).gap else 0.0
  }

  ghost function ArrivalNotAt(t: real): Entry -> int {
    (e: Entry) => if e.event.Arrival? && e.time != t then 1 else 0
  }

  lemma {:induction false} TotalBelow(q: seq<Entry>, f: Entry -> int, g: Entry -> int)
    requires forall e: Entry :: f(e) <= g(e)
    ensures Total(q, f) <= Total(q, g)
  {
    if q != [] {
      TotalBelow(q[1..], f, g);
    }
  }

  /** Once the only arrival is handled, the next one is the only one. */
  lemma NextIsAlone(c: Config, s: State, d: Draws, t: real)
    requires Live(c, s) && s.queue[0].event.Arrival? && Total(s.queue, AnyArrival()) == 1 && t == s.queue[0].time + d.gap
    ensures Total(Step(c, s, d).queue, ArrivalNotAt(t)) == 0
  {
    hide Step;
    StepBlind(c, s, d, ArrivalNotAt(t));
    TotalBelow(s.queue[1..], ArrivalNotAt(t), AnyArrival());
    TotalNonNegative(s.queue[1..], ArrivalNotAt(t));
  }

  /** The outstanding arrival is due when the gaps drawn so far have passed. */
  lemma {:induction false} ArrivalIsDue(c: Config, draws: nat -> Draws, n: nat)
    ensures Total(Run(c, draws, n).queue, ArrivalNotAt(GapsDrawn(c, draws, n))) == 0
    ensures forall e :: e in Run(c, draws, n).queue && e.event.Arrival? ==> e.time == GapsDrawn(c, draws, n)
  {
    hide Step, Start, Total;
    var t := GapsDrawn(c, draws, n);
    if n == 0 {
      StartBlind(c, draws(0).gap, ArrivalNotAt(t));
    } else {
      var s := Run(c, draws, n - 1);
      ArrivalIsDue(c, draws, n - 1);
      OneArrival(c, draws, n - 1);
      if Live(c, s) && s.queue[0].event.Arrival? {
        NextIsAlone(c, s, draws(n), t);
      } else if Live(c, s) {
        StepBlind(c, s, draws(n), ArrivalNotAt(t));
      }
    }
    TotalNonNegative(Run(c, draws, n).queue, ArrivalNotAt(t));
    forall e | e in Run(c, draws, n).queue && e.event.Arrival?
      ensures e.time == t
    {
      assert ArrivalNotAt(t)(e) <= 0;
    }
  }

  // --- the arrivals pass the end --------------------------------------------------------

  lemma {:induction false} DueOrLate(c: Config, q: seq<Entry>)
    ensures Total(q, AnyArrival()) == Total(q, DueArrival(c)) + Total(q, LateArrival(c))
  {
    if q != [] {
      DueOrLate(c, q[1..]);
    }
  }

  /** The gaps drawn by `n` events add up to more than the run lasts. */
  predicate PastEnd(c: Config, draws: nat -> Draws, n: nat) {
    GapsDrawn(c, draws, n) > c.end
  }

  lemma PastEndIsNoneDue(c: Config, draws: nat -> Draws, n: nat)
    ensures PastEnd(c, draws, n) <==> Total(Run(c, draws, n).queue, DueArrival(c)) == 0
  {
    hide Run, Total, GapsDrawn;
    var q, t := Run(c, draws, n).queue, GapsDrawn(c, draws, n);
    OneArrival(c, draws, n);
    ArrivalIsDue(c, draws, n);
    DueOrLate(c, q);
    TotalNonNegative(q, DueArrival(c));
    TotalNonNegative(q, LateArrival(c));
    if PastEnd(c, draws, n) {
      TotalBelow(q, DueArrival(c), ArrivalNotAt(t));
    } else {
      TotalBelow(q, LateArrival(c), ArrivalNotAt(t));
    }
  }

  /** From then on no arrival is handled, and every event lowers the potential. */
  lemma {:induction false} QuietRunIsShort(c: Config, draws: nat -> Draws, n: nat, k: nat)
    requires c.Ok() && PastEnd(c, draws, n) && Live(c, Run(c, draws, n + k))
    ensures Potential(c, 1.0, Run(c, draws, n + k)) + k <= Potential(c, 1.0, Run(c, draws, n))
    ensures Total(Run(c, draws, n + k).queue, DueArrival(c)) == 0
  {
    hide Step, Start, Potential, Total, PastEnd;
    if k == 0 {
      PastEndIsNoneDue(c, draws, n);
    } else {
      var s := Run(c, draws, n + k - 1);
      assert Live(c, s);
      QuietRunIsShort(c, draws, n, k - 1);
      TotalNonNegative(s.queue, DueArrival(c));
      assert DueArrival(c)(s.queue[0]) == 0;
      StepFalls(c, 1.0, s, draws(n + k));
      StepBlind(c, s, draws(n + k), DueArrival(c));
    }
  }

  lemma StopsAfter(c: Config, draws: nat -> Draws, n: nat, m: nat)
    requires c.Ok() && PastEnd(c, draws, n) && m > n + Potential(c, 1.0, Run(c, draws, n))
    ensures !Live(c, Run(c, draws, m))
  {
    hide Run, Potential, PastEnd;
    PotentialIsNonNegative(c, 1.0, Run(c, draws, n));
    if Live(c, Run(c, draws, m)) {
      QuietRunIsShort(c, draws, n, m - n);
      PotentialIsNonNegative(c, 1.0, Run(c, draws, m));
    }
  }

  /** The loop stops exactly when the gaps drawn at its arrivals add up to more than the run lasts. */
  lemma StopsWhenArrivalsPass(c: Config, draws: nat -> Draws)
    requires c.Ok() && Proper(draws)
    ensures (exists n: nat :: !Live(c, Run(c, draws, n))) <==> (exists n: nat :: PastEnd(c, draws, n))
  {
    hide Run, Potential, PastEnd;
    if n: nat :| PastEnd(c, draws, n) {
      PotentialIsNonNegative(c, 1.0, Run(c, draws, n));
      var m: nat := n + Potential(c, 1.0, Run(c, draws, n)) + 1;
      StopsAfter(c, draws, n, m);
      assert !Live(c, Run(c, draws, m));
    }
    if n: nat :| !Live(c, Run(c, draws, n)) {
      StoppedIsPast(c, draws, n);
    }
  }

  lemma StoppedIsPast(c: Config, draws: nat -> Draws, n: nat)
    requires c.Ok() && Proper(draws) && !Live(c, Run(c, draws, n))
    ensures PastEnd(c, draws, n)
  {
    hide Run, Total;
    var q := Run(c, draws, n).queue;
    RunIsOrderly(c, draws, n);
    PastEndIsNoneDue(c, draws, n);
    forall e | e in q
      ensures e.time > c.end
    {
      var i :| 0 <= i < |q| && q[i] == e;
      assert i > 0 ==> Before(q[0], q[i]);
    }
    NoneDue(c, q);
  }

  lemma {:induction false} NoneDue(c: Config, q: seq<Entry>)
    requires forall e :: e in q ==> e.time > c.end
    ensures Total(q, DueArrival(c)) == 0
  {
    if q != [] {
      NoneDue(c, q[1..]);
    }
  }

  /** In particular with gaps bounded below, whatever the bound. */
  lemma BoundedGapsPass(c: Config, gap: real, draws: nat -> Draws)
    requires c.Ok() && gap > 0.0 && forall k :: draws(k).gap >= gap
    ensures exists n: nat :: PastEnd(c, draws, n)
  {
    hide Run, Termination.Bound, PastEnd;
    var n: nat := Termination.Bound(c, gap, draws(0).gap) + 1;
    Stops(c, gap, draws, n);
    assert !Live(c, Run(c, draws, n));
    StopsWhenArrivalsPass(c, draws);
  }
}
