/**
 The subscriber, told by deliveries and consumer ticks alone: its buffer holds the latest samples
 received since the last tick, the older ones are evicted, and a tick takes the newest.
 */
module Subscriber {
  import opened Wrappers
  import opened Events
  import opened Pipeline
  import opened Discipline
  import opened Effects

  type Receipt = (real, nat)

  // --- the reference ---------------------------------------------------------------------

  /** The event that the `n + 1`-st step handles. */
  function Upcoming(c: Config, draws: nat -> Draws, n: nat): Option<Entry> {
    var s := Run(c, draws, n);
    if Live(c, s) then Some(s.queue[0]) else None
  }

  predicate Delivers(e: Option<Entry>) { e.Some? && e.value.event.Deliver? }

  predicate Ticks(e: Option<Entry>) { e.Some? && e.value.event.Consume? }

  /** What has been delivered since the last tick, in the order of receipt. */
  function Arrived(c: Config, draws: nat -> Draws, n: nat): seq<Receipt> {
    if n == 0 then []
    else
      var e, before := Upcoming(c, draws, n - 1), Arrived(c, draws, n - 1);
      if Delivers(e) then before + [(e.value.time, e.value.event.id)] else if Ticks(e) then [] else before
  }

  function Latest<T>(s: seq<T>, k: nat): seq<T> { if |s| <= k then s else s[|s| - k..] }

  function Earlier<T>(s: seq<T>, k: nat): seq<T> { if |s| <= k then [] else s[..|s| - k] }

  /** What the deliveries before the last tick have pushed out. */
  function PushedOut(c: Config, draws: nat -> Draws, n: nat): seq<nat> {
    if n == 0 then []
    else
      PushedOut(c, draws, n - 1)
      + if Ticks(Upcoming(c, draws, n - 1)) then BufferedIds(Earlier(Arrived(c, draws, n - 1), c.qosDepth)) else []
  }

  /** The sample that a tick takes is the last one delivered, if any. */
  function Taken(c: Config, draws: nat -> Draws, n: nat): seq<nat> {
    if n == 0 then []
    else
      var e, before := Upcoming(c, draws, n - 1), Arrived(c, draws, n - 1);
      Taken(c, draws, n - 1) + if Ticks(e) && before != [] then [before[|before| - 1].1] else []
  }

  /** ... and it counts if the tick lies in the measurement window. */
  function Counted(c: Config, draws: nat -> Draws, n: nat): seq<nat> {
    if n == 0 then []
    else
      var e, before := Upcoming(c, draws, n - 1), Arrived(c, draws, n - 1);
      Counted(c, draws, n - 1) + if Ticks(e) && before != [] && e.value.time >= c.measureFrom then [before[|before| - 1].1] else []
  }

  // --- one event ----------------------------------------------------------------------------

  /** Apart from deliveries and ticks no event touches the subscriber. */
  lemma OthersLeaveIt(c: Config, s: State, d: Draws)
    requires Live(c, s) && !s.queue[0].event.Deliver? && !s.queue[0].event.Consume?
    ensures var t := Step(c, s, d);
            && t.buffer == s.buffer && t.log.evicted == s.log.evicted && t.log.consumed == s.log.consumed && t.log.measured == s.log.measured
  {
    hide Insert, Place, Refill, Depart, Dispatch;
    var p := Pop(s);
    match s.queue[0].event
    case Arrival => PlaceTouches(c, Capture(c, p), Frame(p.clock, p.next), d);
    case EpochTimer(_) => DispatchTouches(c, p, p.clock, ByWindow, d.lock);
    case ServerDone(items, service) =>
      DepartTouches(c, Credit(c, Release(p), service), items, |items|, d.hops);
      RefillTouches(c, Depart(c, Credit(c, Release(p), service), items, |items|, d.hops), d);
    case ServerFailed(_) => RefillTouches(c, Release(p), d);
  }

  lemma KeepsOneMore(all: seq<Receipt>, x: Receipt, k: nat)
    requires k >= 1
    ensures var kept := Latest(all, k) + [x];
            && |Latest(all, k)| <= k
            && Latest(all + [x], k) == (if |kept| > k then kept[1..] else kept)
            && Earlier(all + [x], k) == Earlier(all, k) + (if |kept| > k then [kept[0]] else [])
  {
  }

  lemma IdsOfAppend(a: seq<Receipt>, b: seq<Receipt>)
    ensures BufferedIds(a + b) == BufferedIds(a) + BufferedIds(b)
  {
  }

  /** What the log says of a subscriber that has received `arrived` since the last tick. */
  ghost predicate Holds(c: Config, s: State, arrived: seq<Receipt>, out: seq<nat>) {
    s.buffer == Latest(arrived, c.qosDepth) && s.log.evicted == out + BufferedIds(Earlier(arrived, c.qosDepth))
  }

  lemma DeliveryHolds(c: Config, s: State, d: Draws, arrived: seq<Receipt>, out: seq<nat>)
    requires c.Ok() && Live(c, s) && s.queue[0].event.Deliver? && Holds(c, s, arrived, out)
    ensures var t := Step(c, s, d);
            && Holds(c, t, arrived + [(s.queue[0].time, s.queue[0].event.id)], out)
            && t.log.consumed == s.log.consumed && t.log.measured == s.log.measured
  {
    hide Latest, Earlier, BufferedIds;
    var x := (s.queue[0].time, s.queue[0].event.id);
    KeepsOneMore(arrived, x, c.qosDepth);
    var kept := Latest(arrived, c.qosDepth) + [x];
    IdsOfAppend(Earlier(arrived, c.qosDepth), if |kept| > c.qosDepth then [kept[0]] else []);
    assert BufferedIds([kept[0]]) == [kept[0].1] && BufferedIds([]) == [] by { OneId(kept[0]); }
  }

  lemma OneId(x: Receipt)
    ensures BufferedIds([x]) == [x.1] && BufferedIds([]) == []
  {
  }

  lemma TickTakes(c: Config, s: State, d: Draws, arrived: seq<Receipt>, out: seq<nat>)
    requires c.Ok() && Live(c, s) && s.queue[0].event.Consume? && Holds(c, s, arrived, out)
    ensures var t, tick := Step(c, s, d), s.queue[0].time;
            && Holds(c, t, [], out + BufferedIds(Earlier(arrived, c.qosDepth)))
            && t.log.consumed == s.log.consumed + (if arrived == [] then [] else [arrived[|arrived| - 1].1])
            && t.log.measured == s.log.measured + (if arrived == [] || tick < c.measureFrom then [] else [arrived[|arrived| - 1].1])
  {
    hide Insert, Measure, BufferedIds;
    assert BufferedIds(Earlier([], c.qosDepth)) == [] by { OneId((0.0, 0)); }
    assert arrived != [] ==> s.buffer != [] && s.buffer[|s.buffer| - 1] == arrived[|arrived| - 1];
  }

  // --- whole runs ----------------------------------------------------------------------------

  /** KEEP_LAST: the buffer is the last `qos_queue_depth` samples received since the last tick, and all earlier ones are evicted, in their order. */
  lemma {:induction false} KeepsTheLatest(c: Config, draws: nat -> Draws, n: nat)
    requires c.Ok()
    ensures Holds(c, Run(c, draws, n), Arrived(c, draws, n), PushedOut(c, draws, n))
  {
    hide Step, Start, Latest, Earlier, BufferedIds, Live;
    if n == 0 {
      NothingReceived(c, draws(0).gap);
    } else {
      KeepsTheLatest(c, draws, n - 1);
      EventHolds(c, draws, n - 1);
    }
  }

  lemma NothingReceived(c: Config, gap: real)
    ensures var s := Start(c, gap); Holds(c, s, [], []) && s.log.consumed == [] && s.log.measured == []
  {
    hide Insert;
  }

  lemma EventHolds(c: Config, draws: nat -> Draws, n: nat)
    requires c.Ok() && Holds(c, Run(c, draws, n), Arrived(c, draws, n), PushedOut(c, draws, n))
    ensures Holds(c, Run(c, draws, n + 1), Arrived(c, draws, n + 1), PushedOut(c, draws, n + 1))
    ensures var s, t, e, arrived := Run(c, draws, n), Run(c, draws, n + 1), Upcoming(c, draws, n), Arrived(c, draws, n);
            && t.log.consumed == s.log.consumed + (if Ticks(e) && arrived != [] then [arrived[|arrived| - 1].1] else [])
            && t.log.measured == s.log.measured
                 + (if Ticks(e) && arrived != [] && e.value.time >= c.measureFrom then [arrived[|arrived| - 1].1] else [])
  {
    hide Step, Start, Latest, Earlier, BufferedIds;
    var s := Run(c, draws, n);
    if Live(c, s) {
      if s.queue[0].event.Deliver? {
        DeliveryHolds(c, s, draws(n + 1), Arrived(c, draws, n), PushedOut(c, draws, n));
      } else if s.queue[0].event.Consume? {
        TickTakes(c, s, draws(n + 1), Arrived(c, draws, n), PushedOut(c, draws, n));
      } else {
        OthersLeaveIt(c, s, draws(n + 1));
      }
    }
  }

  /** Every tick takes the sample delivered last, and no other; it is measured if the tick lies in the window. */
  lemma {:induction false} TheNewestIsTaken(c: Config, draws: nat -> Draws, n: nat)
    requires c.Ok()
    ensures Run(c, draws, n).log.consumed == Taken(c, draws, n) && Run(c, draws, n).log.measured == Counted(c, draws, n)
  {
    hide Run, Holds, Upcoming, Arrived, PushedOut;
    if n == 0 {
      NothingReceived(c, draws(0).gap);
      AtStart(c, draws);
    } else {
      TheNewestIsTaken(c, draws, n - 1);
      KeepsTheLatest(c, draws, n - 1);
      EventHolds(c, draws, n - 1);
    }
  }

  lemma AtStart(c: Config, draws: nat -> Draws)
    ensures Run(c, draws, 0) == Start(c, draws(0).gap)
  {
  }

  /** Samples are received in the order of time, so whatever was evicted since the last tick is older than what is buffered. */
  lemma {:induction false} ReceivedInOrder(c: Config, draws: nat -> Draws, n: nat)
    requires c.Ok() && Proper(draws)
    ensures forall i :: 0 <= i < |Arrived(c, draws, n)| ==> Arrived(c, draws, n)[i].0 <= Run(c, draws, n).clock
    ensures forall i, j :: 0 <= i < j < |Arrived(c, draws, n)| ==> Arrived(c, draws, n)[i].0 <= Arrived(c, draws, n)[j].0
  {
    hide Step, Start, Orderly;
    if n > 0 {
      var s := Run(c, draws, n - 1);
      ReceivedInOrder(c, draws, n - 1);
      RunIsOrderly(c, draws, n - 1);
      if Live(c, s) {
        PopEffect(c, s);
        StepClock(c, s, draws(n));
      }
    }
  }
}
