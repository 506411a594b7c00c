/**
 What the simulator counts, told by the events alone: when frames are captured, when the consumer
 ticks, and what is counted inside the measurement window.
 */
module Tallies {
  import opened Wrappers
  import opened Events
  import opened Pipeline
  import opened Effects
  import opened Arrivals
  import opened Subscriber

  predicate Arrives(e: Option<Entry>) { e.Some? && e.value.event.Arrival? }

  predicate Completes(e: Option<Entry>) { e.Some? && e.value.event.ServerDone? }

  predicate Within(c: Config, e: Option<Entry>) { e.Some? && e.value.time >= c.measureFrom }

  // --- the reference ---------------------------------------------------------------------

  /** The instants of the arrivals. */
  function Instants(c: Config, draws: nat -> Draws, n: nat): seq<real> {
    if n == 0 then []
    else
      var e := Upcoming(c, draws, n - 1);
      Instants(c, draws, n - 1) + if Arrives(e) then [e.value.time] else []
  }

  /** How many arrivals lie in the measurement window. */
  function Produced(c: Config, draws: nat -> Draws, n: nat): nat {
    if n == 0 then 0
    else
      var e := Upcoming(c, draws, n - 1);
      Produced(c, draws, n - 1) + if Arrives(e) && Within(c, e) then 1 else 0
  }

  /** The service times of all batches, and of those, completed in the measurement window. */
  function ServiceOf(c: Config, draws: nat -> Draws, n: nat, all: bool): real {
    if n == 0 then 0.0
    else
      var e := Upcoming(c, draws, n - 1);
      ServiceOf(c, draws, n - 1, all) + if Completes(e) && (all || Within(c, e)) then e.value.event.service else 0.0
  }

  function TicksSoFar(c: Config, draws: nat -> Draws, n: nat): nat {
    if n == 0 then 0 else TicksSoFar(c, draws, n - 1) + if Ticks(Upcoming(c, draws, n - 1)) then 1 else 0
  }

  // --- captures and counts ------------------------------------------------------------------

  /** One capture time for every arrival, numbered behind the initial backlog. */
  ghost predicate CapturedAt(c: Config, s: State, arrivals: seq<real>) {
    && s.next == c.backlog + |arrivals|
    && (forall id :: id in s.captures <==> c.backlog <= id < s.next)
    && forall id :: id in s.captures ==> s.captures[id] == arrivals[id - c.backlog]
  }

  lemma ArrivalTallies(c: Config, s: State, d: Draws)
    requires Live(c, s) && s.queue[0].event.Arrival?
    ensures var t, now := Step(c, s, d), s.queue[0].time;
            && t.next == s.next + 1 && t.captures == s.captures[s.next := now]
            && t.stats.produced == s.stats.produced + (if now >= c.measureFrom then 1 else 0)
            && t.stats.busyTime == s.stats.busyTime && t.log.work == s.log.work
  {
    hide Insert, Place;
    var p := Pop(s);
    PlaceTouches(c, Capture(c, p), Frame(p.clock, p.next), d);
  }

  lemma CompletionTallies(c: Config, s: State, d: Draws)
    requires Live(c, s) && s.queue[0].event.ServerDone?
    ensures var t, now, service := Step(c, s, d), s.queue[0].time, s.queue[0].event.service;
            && t.next == s.next && t.captures == s.captures && t.stats.produced == s.stats.produced
            && t.stats.busyTime == s.stats.busyTime + (if now >= c.measureFrom then service else 0.0)
            && t.log.work == s.log.work + service
  {
    hide Insert, Refill, Depart;
    var p := Pop(s);
    var items, service := s.queue[0].event.items, s.queue[0].event.service;
    DepartTouches(c, Credit(c, Release(p), service), items, |items|, d.hops);
    RefillTouches(c, Depart(c, Credit(c, Release(p), service), items, |items|, d.hops), d);
  }

  lemma OthersTallyNothing(c: Config, s: State, d: Draws)
    requires Live(c, s) && !s.queue[0].event.Arrival? && !s.queue[0].event.ServerDone?
    ensures var t := Step(c, s, d);
            && t.next == s.next && t.captures == s.captures && t.stats.produced == s.stats.produced
            && t.stats.busyTime == s.stats.busyTime && t.log.work == s.log.work
  {
    hide Insert, Refill, Dispatch, Sample, OnDeliver;
    var p := Pop(s);
    match s.queue[0].event
    case EpochTimer(_) => DispatchTouches(c, p, p.clock, ByWindow, d.lock);
    case ServerFailed(_) => RefillTouches(c, Release(p), d);
    case Deliver(id) => DeliverTouches(c, p, id);
    case Consume => SampleTouches(c, p);
  }

  lemma OneMoreEvent(c: Config, draws: nat -> Draws, n: nat)
    ensures var s, t, e := Run(c, draws, n), Run(c, draws, n + 1), Upcoming(c, draws, n);
            && t.next == s.next + (if Arrives(e) then 1 else 0)
            && t.captures == (if Arrives(e) then s.captures[s.next := e.value.time] else s.captures)
            && t.stats.produced == s.stats.produced + (if Arrives(e) && Within(c, e) then 1 else 0)
            && t.stats.busyTime == s.stats.busyTime + (if Completes(e) && Within(c, e) then e.value.event.service else 0.0)
            && t.log.work == s.log.work + (if Completes(e) then e.value.event.service else 0.0)
  {
    hide Step, Start;
    var s := Run(c, draws, n);
    if Live(c, s) {
      if s.queue[0].event.Arrival? {
        ArrivalTallies(c, s, draws(n + 1));
      } else if s.queue[0].event.ServerDone? {
        CompletionTallies(c, s, draws(n + 1));
      } else {
        OthersTallyNothing(c, s, draws(n + 1));
      }
    }
  }

  lemma NothingCounted(c: Config, draws: nat -> Draws)
    ensures var s := Run(c, draws, 0);
            CapturedAt(c, s, []) && s.stats.produced == 0 && s.stats.busyTime == 0.0 && s.log.work == 0.0
  {
    hide Insert;
  }

  /** A frame is captured when it arrives, under the next number. */
  lemma {:induction false} CapturesAreArrivals(c: Config, draws: nat -> Draws, n: nat)
    ensures CapturedAt(c, Run(c, draws, n), Instants(c, draws, n))
  {
    hide Run, Upcoming;
    if n == 0 {
      NothingCounted(c, draws);
    } else {
      CapturesAreArrivals(c, draws, n - 1);
      OneMoreEvent(c, draws, n - 1);
    }
  }

  /** Frames and busy time are counted from the start of the measurement window on, both ends included. */
  lemma {:induction false} CountsWithinTheWindow(c: Config, draws: nat -> Draws, n: nat)
    ensures var s := Run(c, draws, n);
            && s.stats.produced == Produced(c, draws, n)
            && s.stats.busyTime == ServiceOf(c, draws, n, false) && s.log.work == ServiceOf(c, draws, n, true)
  {
    hide Run, Upcoming;
    if n == 0 {
      NothingCounted(c, draws);
    } else {
      CountsWithinTheWindow(c, draws, n - 1);
      OneMoreEvent(c, draws, n - 1);
    }
  }

  // --- the consumer's clock ---------------------------------------------------------------------

  ghost function AnyTick(): Entry -> int {
    (e: Entry) => if e.event.Consume? then 1 else 0
  }

  ghost function TickNotAt(t: real): Entry -> int {
    (e: Entry) => if e.event.Consume? && e.time != t then 1 else 0
  }

  lemma NextTickIsAlone(c: Config, s: State, d: Draws, t: real)
    requires Live(c, s) && s.queue[0].event.Consume? && Total(s.queue, AnyTick()) == 1 && t == s.queue[0].time + c.period
    ensures Total(Step(c, s, d).queue, TickNotAt(t)) == 0
  {
    hide Step;
    StepBlind(c, s, d, TickNotAt(t));
    TotalBelow(s.queue[1..], TickNotAt(t), AnyTick());
    TotalNonNegative(s.queue[1..], TickNotAt(t));
  }

  /** Exactly one tick is outstanding. */
  lemma {:induction false} OneTick(c: Config, draws: nat -> Draws, n: nat)
    ensures Total(Run(c, draws, n).queue, AnyTick()) == 1
  {
    hide Step, Start, Total;
    if n == 0 {
      StartBlind(c, draws(0).gap, AnyTick());
    } else {
      OneTick(c, draws, n - 1);
      if Live(c, Run(c, draws, n - 1)) {
        StepBlind(c, Run(c, draws, n - 1), draws(n), AnyTick());
      }
    }
  }

  /** When the next tick is due: a period after the last one. */
  function TickDue(c: Config, draws: nat -> Draws, n: nat): real {
    if n == 0 then 0.0 else TickDue(c, draws, n - 1) + if Ticks(Upcoming(c, draws, n - 1)) then c.period else 0.0
  }

  lemma {:induction false} TickIsDue(c: Config, draws: nat -> Draws, n: nat)
    ensures Total(Run(c, draws, n).queue, TickNotAt(TickDue(c, draws, n))) == 0
    ensures forall e :: e in Run(c, draws, n).queue && e.event.Consume? ==> e.time == TickDue(c, draws, n)
  {
    hide Step, Start, Total;
    var t := TickDue(c, draws, n);
    if n == 0 {
      StartBlind(c, draws(0).gap, TickNotAt(t));
    } else {
      var s := Run(c, draws, n - 1);
      TickIsDue(c, draws, n - 1);
      OneTick(c, draws, n - 1);
      if Live(c, s) && s.queue[0].event.Consume? {
        NextTickIsAlone(c, s, draws(n), t);
      } else if Live(c, s) {
        StepBlind(c, s, draws(n), TickNotAt(t));
      }
    }
    TotalNonNegative(Run(c, draws, n).queue, TickNotAt(t));
    forall e | e in Run(c, draws, n).queue && e.event.Consume?
      ensures e.time == t
    {
      assert TickNotAt(t)(e) <= 0;
    }
  }

  lemma OnePeriodMore(k: nat, period: real)
    ensures (k + 1) as real * period == k as real * period + period
  {
  }

  lemma {:induction false} DueAfterPeriods(c: Config, draws: nat -> Draws, n: nat)
    ensures TickDue(c, draws, n) == TicksSoFar(c, draws, n) as real * c.period
  {
    hide Upcoming;
    if n > 0 {
      DueAfterPeriods(c, draws, n - 1);
      OnePeriodMore(TicksSoFar(c, draws, n - 1), c.period);
    }
  }

  /** The consumer ticks at the multiples of its period, the first time at zero. */
  lemma TicksArePeriodic(c: Config, draws: nat -> Draws, n: nat)
    ensures forall e :: e in Run(c, draws, n).queue && e.event.Consume? ==> e.time == TicksSoFar(c, draws, n) as real * c.period
  {
    hide Run, TickDue, TicksSoFar;
    TickIsDue(c, draws, n);
    DueAfterPeriods(c, draws, n);
  }
}
