/**
 Where every frame is. At every event boundary of every run each frame ever created is in
 exactly one place; frames vanish from an overwritten epoch only where a worker reports back
 while both the backlog and the epoch hold frames.
 */
module Conservation {
  import opened Wrappers
  import opened Events
  import opened Pipeline
  import opened Effects

  ghost function Of(ids: seq<nat>, id: nat): nat {
    multiset(ids)[id]
  }

  ghost function Serving(id: nat): Entry -> int {
    (e: Entry) => if e.event.ServerDone? then Of(Ids(e.event.items), id) else 0
  }

  ghost function Flying(id: nat): Entry -> int {
    (e: Entry) => if e.event.Deliver? && e.event.id == id then 1 else 0
  }

  /** Places inside the simulator. */
  ghost function Inside(s: State, id: nat): int {
    Of(Ids(s.pending), id) + Of(Ids(s.epoch), id)
    + Total(s.queue, Serving(id)) + Total(s.queue, Flying(id)) + Of(BufferedIds(s.buffer), id)
  }

  /** Fates of a frame that has left it. */
  ghost function Outside(log: Ledger, id: nat): int {
    Of(log.consumed, id) + Of(log.superseded, id) + Of(log.lost, id) + Of(log.evicted, id)
    + Of(log.failed, id) + Of(log.vanished, id)
  }

  ghost function Places(s: State, id: nat): int {
    Inside(s, id) + Outside(s.log, id)
  }

  ghost predicate Conserved(s: State) {
    forall id: nat :: Places(s, id) == if id < s.next then 1 else 0
  }

  // --- one step at a time -------------------------------------------------

  lemma IdsOfConcatenation(a: seq<Frame>, b: seq<Frame>)
    ensures Ids(a + b) == Ids(a) + Ids(b)
  {
  }

  lemma SplitOf(ids: seq<nat>, k: nat, id: nat)
    requires k <= |ids|
    ensures Of(ids, id) == Of(ids[..k], id) + Of(ids[k..], id)
  {
    assert ids == ids[..k] + ids[k..];
  }

  lemma PushPlaces(s: State, t: real, event: Event, id: nat)
    ensures var e := Entry(t, s.stamp + 1, event);
            Places(Push(s, t, event), id) == Places(s, id) + Serving(id)(e) + Flying(id)(e)
  {
    hide Insert, Total;
    var e := Entry(t, s.stamp + 1, event);
    InsertTotal(s.queue, e, Serving(id));
    InsertTotal(s.queue, e, Flying(id));
  }

  lemma StartEpochPlaces(c: Config, s: State, now: real, id: nat)
    ensures Places(StartEpoch(c, s, now), id) == Places(s, id)
  {
    hide Insert, Total;
    var due := if c.window > 0.0 then now + c.window else now;
    PushPlaces(Reopen(s, now, due), due, EpochTimer(s.generation + 1), id);
    assert Ids([]) == [];
  }

  lemma ClosePlaces(s: State, now: real, reason: Reason, failure: Option<Mechanism>, id: nat)
    ensures Places(Close(s, now, reason, failure), id) == Places(s, id) - Of(Ids(s.epoch), id)
  {
    hide Insert, Total;
    assert Ids([]) == [];
  }

  lemma FailPlaces(s: State, items: seq<Frame>, now: real, m: Mechanism, id: nat)
    ensures Places(Fail(s, items, now, m), id) == Places(s, id) + Of(Ids(items), id)
  {
    hide Insert, Total, Push;
    PushPlaces(MarkFailed(s, items, m), now, ServerFailed(items), id);
  }

  lemma ServePlaces(s: State, items: seq<Frame>, now: real, reason: Reason, lockWait: real, service: real, id: nat)
    ensures Places(Serve(s, items, now, reason, lockWait, service), id) == Places(s, id) + Of(Ids(items), id)
  {
    hide Insert, Total, Record, Board, Push;
    PushPlaces(MarkServed(s, items, now, reason, lockWait, service), now + service, ServerDone(items, service), id);
  }

  lemma DispatchPlaces(c: Config, s: State, now: real, reason: Reason, draw: real, id: nat)
    ensures Places(Dispatch(c, s, now, reason, draw), id) == Places(s, id)
  {
    hide Insert, Total, Verdict, ServiceTime, LockWait, Close, Fail, Serve, Ids, Of;
    if s.epoch != [] && s.busy < c.workers {
      var verdict := Verdict(c, s, now, draw);
      var closed := Close(s, now, reason, verdict);
      ClosePlaces(s, now, reason, verdict, id);
      if verdict.Some? {
        FailPlaces(closed, s.epoch, now, verdict.value, id);
      } else {
        ServePlaces(closed, s.epoch, now, reason, LockWait(c, draw), ServiceTime(c, |s.epoch|), id);
      }
    }
  }

  lemma FillPlaces(c: Config, s: State, id: nat)
    requires s.epoch == []
    ensures Places(Fill(c, s), id) == Places(s, id)
  {
    hide Insert, Total;
    var take := if c.maxBatch <= |s.pending| then c.maxBatch else |s.pending|;
    assert Ids(s.pending)[..take] == Ids(s.pending[..take]) && Ids(s.pending)[take..] == Ids(s.pending[take..]);
    SplitOf(Ids(s.pending), take, id);
    assert Ids([]) == [];
  }

  lemma RefillPlaces(c: Config, s: State, d: Draws, id: nat)
    ensures Places(Refill(c, s, d), id) == Places(s, id)
  {
    hide Dispatch, Places, Fill, Insert;
    var filled := Fill(c, StartEpoch(c, s, s.clock));
    StartEpochPlaces(c, s, s.clock, id);
    FillPlaces(c, StartEpoch(c, s, s.clock), id);
    DispatchPlaces(c, filled, s.clock, BySize, d.lock, id);
    DispatchPlaces(c, s, s.clock, BySize, d.lock, id);
  }

  lemma LaunchPlaces(s: State, frame: nat, delay: real, id: nat)
    ensures Places(Launch(s, frame, delay), id) == Places(s, id) + Of([frame], id)
    ensures Places(Lose(s, frame), id) == Places(s, id) + Of([frame], id)
  {
    hide Insert, Total;
    PushPlaces(s.(log := s.log.(delays := s.log.delays[frame := delay])), s.clock + delay, Deliver(frame), id);
  }

  lemma {:induction false} DepartPlaces(c: Config, s: State, items: seq<Frame>, k: nat, hops: nat -> Hop, id: nat)
    requires k <= |items|
    ensures Places(Depart(c, s, items, k, hops), id) == Places(s, id) + Of(Ids(items[..k]), id)
  {
    hide Insert, Total, Places, Launch, Lose;
    if k == 0 {
      assert Ids(items[..0]) == [];
    } else {
      DepartPlaces(c, s, items, k - 1, hops, id);
      assert Ids(items[..k]) == Ids(items[..k - 1]) + [items[k - 1].id];
      LaunchPlaces(Depart(c, s, items, k - 1, hops), items[k - 1].id, Delay(c, hops(k - 1)), id);
    }
  }

  lemma PlacePlaces(c: Config, s: State, frame: Frame, d: Draws, id: nat)
    ensures Places(Place(c, s, frame, d), id) == Places(s, id) + Of([frame.id], id)
  {
    hide Insert, Total, Dispatch, StartEpoch, Outside;
    var open := if s.epoch == [] then StartEpoch(c, s, s.clock) else s;
    StartEpochPlaces(c, s, s.clock, id);
    var joined := open.(epoch := open.epoch + [frame]);
    IdsOfConcatenation(s.pending, [frame]);
    IdsOfConcatenation(open.epoch, [frame]);
    assert Ids([frame]) == [frame.id];
    DispatchPlaces(c, joined, s.clock, BySize, d.lock, id);
  }

  lemma OfAppend(ids: seq<nat>, x: nat, id: nat)
    ensures Of(ids + [x], id) == Of(ids, id) + Of([x], id)
  {
  }

  lemma BufferSplit(buffer: seq<(real, nat)>, last: (real, nat), id: nat)
    ensures var b := buffer + [last];
            && Of(BufferedIds(b), id) == Of(BufferedIds(buffer), id) + Of([last.1], id)
            && Of(BufferedIds(b), id) == Of([b[0].1], id) + Of(BufferedIds(b[1..]), id)
  {
    var b := buffer + [last];
    assert BufferedIds(b) == BufferedIds(buffer) + [last.1];
    assert BufferedIds(b) == [b[0].1] + BufferedIds(b[1..]);
  }

  lemma DeliverPlaces(c: Config, s: State, frame: nat, id: nat)
    ensures Places(OnDeliver(c, s, frame), id) == Places(s, id) + Of([frame], id)
  {
    hide Total, Of, Serving, Flying;
    var buffer := s.buffer + [(s.clock, frame)];
    BufferSplit(s.buffer, (s.clock, frame), id);
    OfAppend(s.log.evicted, buffer[0].1, id);
  }

  lemma SamplePlaces(c: Config, s: State, id: nat)
    ensures Places(Sample(c, s), id) == Places(s, id)
  {
    hide Total, Measure;
    if s.buffer != [] {
      var n := |s.buffer| - 1;
      assert BufferedIds(s.buffer) == BufferedIds(s.buffer[..n]) + [s.buffer[n].1];
      assert BufferedIds([]) == [];
    }
  }

  lemma PopPlaces(s: State, id: nat)
    requires s.queue != []
    ensures Places(Pop(s), id) == Places(s, id) - Serving(id)(s.queue[0]) - Flying(id)(s.queue[0])
  {
  }

  lemma SamePlaces(s: State, t: State, id: nat)
    requires s.pending == t.pending && s.epoch == t.epoch && s.queue == t.queue && s.buffer == t.buffer
    requires Outside(s.log, id) == Outside(t.log, id)
    ensures Places(s, id) == Places(t, id)
  {
  }

  /** An event moves frames about; only an arrival adds one. */
  lemma StepPlaces(c: Config, s: State, d: Draws, id: nat)
    requires Live(c, s)
    ensures Places(Step(c, s, d), id) == Places(s, id) + (if s.queue[0].event.Arrival? then Of([s.next], id) else 0)
  {
    hide Places, Insert, Total, Place, Refill, Depart, Dispatch, Sample, OnDeliver;
    PopPlaces(s, id);
    var p := Pop(s);
    match s.queue[0].event
    case Arrival =>
      SamePlaces(p, Capture(c, p), id);
      PlacePlaces(c, Capture(c, p), Frame(p.clock, p.next), d, id);
      PushPlaces(Place(c, Capture(c, p), Frame(p.clock, p.next), d), p.clock + d.gap, Arrival, id);
    case EpochTimer(_) =>
      DispatchPlaces(c, p, p.clock, ByWindow, d.lock, id);
    case ServerDone(items, service) =>
      var worked := Credit(c, Release(p), service);
      SamePlaces(p, worked, id);
      assert items[..|items|] == items;
      DepartPlaces(c, worked, items, |items|, d.hops, id);
      RefillPlaces(c, Depart(c, worked, items, |items|, d.hops), d, id);
    case ServerFailed(_) =>
      SamePlaces(p, Release(p), id);
      RefillPlaces(c, Release(p), d, id);
    case Deliver(frame) =>
      DeliverPlaces(c, p, frame, id);
    case Consume =>
      SamplePlaces(c, p, id);
      PushPlaces(Sample(c, p), p.clock + c.period, Consume, id);
  }

  // --- whole runs ---------------------------------------------------------

  ghost function Iota(n: nat): seq<nat> {
    seq(n, i requires 0 <= i < n => i)
  }

  lemma {:induction false} CountIota(n: nat, id: nat)
    ensures Of(Iota(n), id) == if id < n then 1 else 0
  {
    if n > 0 {
      CountIota(n - 1, id);
      assert Iota(n) == Iota(n - 1) + [n - 1];
    }
  }

  lemma StartConserves(c: Config, gap: real)
    ensures Conserved(Start(c, gap))
  {
    hide Insert, Places, Total;
    forall id: nat
      ensures Places(Start(c, gap), id) == if id < c.backlog then 1 else 0
    {
      var s := Start(c, gap).(queue := [], stamp := 0);
      assert Ids(Backlog(c.backlog)) == Iota(c.backlog) && Ids([]) == [] && BufferedIds([]) == [];
      CountIota(c.backlog, id);
      EmptyPlaces(s, id);
      PushPlaces(s, gap, Arrival, id);
      PushPlaces(Push(s, gap, Arrival), 0.0, Consume, id);
    }
  }

  lemma EmptyPlaces(s: State, id: nat)
    requires s.queue == [] && s.epoch == [] && s.buffer == []
    requires s.log.consumed == s.log.superseded == s.log.lost == s.log.evicted == s.log.failed == s.log.vanished == []
    ensures Places(s, id) == Of(Ids(s.pending), id)
  {
    assert Ids([]) == [] && BufferedIds([]) == [];
  }

  /** Frame conservation: after every event of every run, every frame ever created is in exactly one place. */
  lemma {:induction false} RunConserves(c: Config, draws: nat -> Draws, n: nat)
    ensures Conserved(Run(c, draws, n))
  {
    hide Step, Start, Places;
    if n == 0 {
      StartConserves(c, draws(0).gap);
    } else {
      var s := Run(c, draws, n - 1);
      RunConserves(c, draws, n - 1);
      if Live(c, s) {
        forall id: nat
          ensures Places(Step(c, s, draws(n)), id) == if id < Step(c, s, draws(n)).next then 1 else 0
        {
          StepPlaces(c, s, draws(n), id);
          StepTouches(c, s, draws(n));
        }
      }
    }
  }

  /** No frame is consumed twice, and no consumed frame was superseded, lost, evicted or failed. */
  lemma ConsumedOnce(c: Config, draws: nat -> Draws, n: nat, i: nat, j: nat)
    requires var s := Run(c, draws, n); i < |s.log.consumed| && j < |s.log.consumed| && i != j
    ensures var s := Run(c, draws, n);
            && s.log.consumed[i] != s.log.consumed[j]
            && s.log.consumed[i] !in s.log.superseded + s.log.lost + s.log.evicted + s.log.failed + s.log.vanished
  {
    hide Run, Insert, Total;
    RunConserves(c, draws, n);
    var s := Run(c, draws, n);
    var id := s.log.consumed[i];
    NonNegativePlaces(s, id);
    assert Places(s, id) <= 1;
    if s.log.consumed[j] == id {
      TwiceIn(s.log.consumed, i, j);
    }
  }

  lemma NonNegativePlaces(s: State, id: nat)
    ensures Total(s.queue, Serving(id)) >= 0 && Total(s.queue, Flying(id)) >= 0
  {
    TotalNonNegative(s.queue, Serving(id));
    TotalNonNegative(s.queue, Flying(id));
  }

  lemma TwiceIn(ids: seq<nat>, i: nat, j: nat)
    requires i < |ids| && j < |ids| && i != j && ids[i] == ids[j]
    ensures Of(ids, ids[i]) >= 2
  {
    var a, b := if i < j then i else j, if i < j then j else i;
    assert ids == ids[..b] + ids[b..];
    assert ids[a] in ids[..b] && ids[b] in ids[b..];
  }

  // --- frames that vanish -------------------------------------------------

  /** The guard under which `start_epoch` overwrites frames: a worker reports back, and both queues hold frames. */
  ghost predicate Overwrites(s: State) {
    && s.queue != []
    && (s.queue[0].event.ServerDone? || s.queue[0].event.ServerFailed?)
    && s.pending != [] && s.epoch != []
  }

  /** A step loses exactly the open epoch when that guard holds, and nothing when it does not. */
  lemma StepVanishes(c: Config, s: State, d: Draws)
    requires Live(c, s)
    ensures Step(c, s, d).log.vanished == s.log.vanished + (if Overwrites(s) then Ids(s.epoch) else [])
  {
    hide Insert, Place, Refill, Depart, Dispatch, Sample, OnDeliver;
    StepTouches(c, s, d);
  }

  lemma ArrivalTouches(c: Config, s: State, d: Draws)
    ensures var r := OnArrival(c, s, d); r.next == s.next + 1 && r.log.vanished == s.log.vanished
  {
    hide Insert, Place;
    PlaceTouches(c, Capture(c, s), Frame(s.clock, s.next), d);
  }

  lemma DoneTouches(c: Config, s: State, items: seq<Frame>, service: real, d: Draws)
    ensures var r := OnDone(c, s, items, service, d);
            r.next == s.next && r.log.vanished == s.log.vanished + (if s.pending != [] then Ids(s.epoch) else [])
  {
    hide Insert, Refill, Depart, Ids;
    var worked := Credit(c, Release(s), service);
    DepartTouches(c, worked, items, |items|, d.hops);
    RefillTouches(c, Depart(c, worked, items, |items|, d.hops), d);
  }

  lemma FailedTouches(c: Config, s: State, d: Draws)
    ensures var r := OnFailed(c, s, d);
            r.next == s.next && r.log.vanished == s.log.vanished + (if s.pending != [] then Ids(s.epoch) else [])
  {
    hide Insert, Refill, Ids;
    RefillTouches(c, Release(s), d);
  }

  lemma ConsumeTouches(c: Config, s: State)
    ensures var r := OnConsume(c, s); r.next == s.next && r.log.vanished == s.log.vanished
  {
    hide Insert, Sample;
    SampleTouches(c, s);
  }

  /** The effects of the handlers. */
  lemma StepTouches(c: Config, s: State, d: Draws)
    requires Live(c, s)
    ensures var r := Step(c, s, d);
            && r.next == s.next + (if s.queue[0].event.Arrival? then 1 else 0)
            && r.log.vanished == s.log.vanished + (if Overwrites(s) then Ids(s.epoch) else [])
  {
    hide Insert, OnArrival, OnDone, OnFailed, OnConsume, OnDeliver, Dispatch, Ids;
    var p := Pop(s);
    NoIds();
    match s.queue[0].event
    case Arrival => ArrivalTouches(c, p, d);
    case EpochTimer(_) => DispatchTouches(c, p, p.clock, ByWindow, d.lock);
    case ServerDone(items, service) => DoneTouches(c, p, items, service, d);
    case ServerFailed(_) => FailedTouches(c, p, d);
    case Deliver(id) => DeliverTouches(c, p, id);
    case Consume => ConsumeTouches(c, p);
  }
}
