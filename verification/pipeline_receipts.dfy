/**
 The age at receipt of every frame that was ever delivered, wherever it is now: in the buffer,
 consumed, superseded or evicted. Its records are never touched again.
 */
module Receipts {
  import opened Events
  import opened Pipeline
  import opened Discipline
  import opened Effects
  import opened Conservation
  import opened Latency

  /** Places at the subscriber. */
  ghost function AtSubscriber(s: State, id: nat): int {
    Of(BufferedIds(s.buffer), id) + Of(s.log.consumed, id) + Of(s.log.superseded, id) + Of(s.log.evicted, id)
  }

  /** What the age at receipt is computed from. */
  ghost predicate SameRecords(s: State, t: State, id: nat) {
    && (id in s.log.flights ==> id in t.log.flights && t.log.flights[id] == s.log.flights[id])
    && (id in s.log.delays ==> id in t.log.delays && t.log.delays[id] == s.log.delays[id])
    && (id in s.captures ==> id in t.captures && t.captures[id] == s.captures[id])
    && (id in s.received <==> id in t.received)
    && (id in s.received ==> t.received[id] == s.received[id])
    && AtSubscriber(t, id) == AtSubscriber(s, id)
  }

  lemma SameTwice(s: State, t: State, u: State, id: nat)
    requires SameRecords(s, t, id) && SameRecords(t, u, id)
    ensures SameRecords(s, u, id)
  {
    hide AtSubscriber;
  }

  lemma PushRecords(s: State, t: real, event: Event, id: nat)
    ensures SameRecords(s, Push(s, t, event), id)
  {
    hide Insert;
  }

  lemma StartEpochRecords(c: Config, s: State, id: nat)
    ensures SameRecords(s, StartEpoch(c, s, s.clock), id)
  {
    hide StartEpoch, Ids;
    StartEpochTouches(c, s, s.clock);
  }

  lemma DispatchRecords(c: Config, s: State, reason: Reason, draw: real, id: nat)
    requires id !in Ids(s.epoch)
    ensures SameRecords(s, Dispatch(c, s, s.clock, reason, draw), id)
  {
    hide Insert, Record, Board, Verdict, ServiceTime, LockWait, Of, Ids, BufferedIds;
    DispatchTouches(c, s, s.clock, reason, draw);
    if s.epoch != [] && s.busy < c.workers && Verdict(c, s, s.clock, draw).None? {
      BoardLookup(s.epoch, Flight(s.clock, LockWait(c, draw), ServiceTime(c, |s.epoch|), |s.epoch|), s.log.flights, id);
    }
  }

  lemma PlaceRecords(c: Config, s: State, frame: Frame, d: Draws, id: nat)
    requires id !in Ids(s.epoch) && id != frame.id
    ensures SameRecords(s, Place(c, s, frame, d), id)
  {
    hide StartEpoch, Dispatch, AtSubscriber;
    var open := if s.epoch == [] then StartEpoch(c, s, s.clock) else s;
    StartEpochTouches(c, s, s.clock);
    StartEpochRecords(c, s, id);
    var joined := open.(epoch := open.epoch + [frame]);
    IdsOfConcatenation(open.epoch, [frame]);
    assert Ids([frame]) == [frame.id] && Ids([]) == [];
    OnlyLists(open, joined, id);
    OnlyLists(s, s.(pending := s.pending + [frame]), id);
    DispatchRecords(c, joined, BySize, d.lock, id);
  }

  /** Moving frames between backlog and epoch touches no record. */
  lemma OnlyLists(s: State, t: State, id: nat)
    requires t == s.(epoch := t.epoch, pending := t.pending, busy := t.busy, stats := t.stats, log := s.log.(work := t.log.work, lost := t.log.lost))
    ensures SameRecords(s, t, id)
  {
  }

  lemma RefillRecords(c: Config, s: State, d: Draws, id: nat)
    requires id !in Ids(s.epoch) && id !in Ids(s.pending)
    ensures SameRecords(s, Refill(c, s, d), id)
  {
    hide StartEpoch, Dispatch, SameRecords;
    var open := StartEpoch(c, s, s.clock);
    StartEpochTouches(c, s, s.clock);
    StartEpochRecords(c, s, id);
    var filled := Fill(c, open);
    OnlyLists(open, filled, id);
    IdsOfConcatenation(filled.epoch, filled.pending);
    assert filled.epoch + filled.pending == s.pending;
    SameTwice(s, open, filled, id);
    OnlyLists(s, s, id);
    if id !in Ids(filled.epoch) {
      DispatchRecords(c, filled, BySize, d.lock, id);
      SameTwice(s, filled, Dispatch(c, filled, s.clock, BySize, d.lock), id);
    }
    DispatchRecords(c, s, BySize, d.lock, id);
  }

  lemma {:induction false} DepartRecords(c: Config, s: State, items: seq<Frame>, k: nat, hops: nat -> Hop, id: nat)
    requires k <= |items| && id !in Ids(items[..k])
    ensures SameRecords(s, Depart(c, s, items, k, hops), id)
  {
    hide Insert, Delay, AtSubscriber;
    DepartTouches(c, s, items, k, hops);
    assert AtSubscriber(Depart(c, s, items, k, hops), id) == AtSubscriber(s, id) by { SamePlacesThere(s, Depart(c, s, items, k, hops), id); }
    if k > 0 {
      assert Ids(items[..k]) == Ids(items[..k - 1]) + [items[k - 1].id];
      DepartRecords(c, s, items, k - 1, hops, id);
    }
  }

  lemma SamePlacesThere(s: State, t: State, id: nat)
    requires t.buffer == s.buffer && t.log.consumed == s.log.consumed && t.log.superseded == s.log.superseded && t.log.evicted == s.log.evicted
    ensures AtSubscriber(t, id) == AtSubscriber(s, id)
  {
  }

  lemma DeliverRecords(c: Config, s: State, frame: nat, id: nat)
    ensures AtSubscriber(OnDeliver(c, s, frame), id) == AtSubscriber(s, id) + Of([frame], id)
    ensures id != frame ==> SameRecords(s, OnDeliver(c, s, frame), id)
  {
    hide Total, Of;
    BufferSplit(s.buffer, (s.clock, frame), id);
    OfAppend(s.log.evicted, (s.buffer + [(s.clock, frame)])[0].1, id);
    assert id != frame ==> Of([frame], id) == 0 by { OfOther(frame, id); }
  }

  lemma OfOther(frame: nat, id: nat)
    ensures Of([frame], id) == if id == frame then 1 else 0
  {
  }

  lemma SampleRecords(c: Config, s: State, id: nat)
    ensures SameRecords(s, Sample(c, s), id)
  {
    hide Measure;
    if s.buffer != [] {
      var n := |s.buffer| - 1;
      assert BufferedIds(s.buffer) == BufferedIds(s.buffer[..n]) + [s.buffer[n].1];
      assert BufferedIds([]) == [];
    }
  }

  // --- a frame at the subscriber is nowhere else -------------------------------------------

  lemma ReceivedIsElsewhere(s: State, id: nat)
    requires Conserved(s) && AtSubscriber(s, id) >= 1
    ensures id !in Ids(s.epoch) && id !in Ids(s.pending) && id < s.next
    ensures forall e :: e in s.queue ==> !Carries(e, id)
  {
    hide Insert, Total;
    assert Places(s, id) <= 1;
    TotalNonNegative(s.queue, Serving(id));
    TotalNonNegative(s.queue, Flying(id));
    forall e | e in s.queue
      ensures !Carries(e, id)
    {
      assert Serving(id)(e) + Flying(id)(e) <= 0;
    }
  }

  lemma DoneRecords(c: Config, s: State, items: seq<Frame>, service: real, d: Draws, id: nat)
    requires id !in Ids(s.epoch) && id !in Ids(s.pending) && id !in Ids(items)
    ensures SameRecords(s, OnDone(c, s, items, service, d), id)
  {
    hide Insert, Refill, Depart, SameRecords;
    var worked := Credit(c, Release(s), service);
    var departed := Depart(c, worked, items, |items|, d.hops);
    assert items[..|items|] == items;
    OnlyLists(s, worked, id);
    DepartTouches(c, worked, items, |items|, d.hops);
    DepartRecords(c, worked, items, |items|, d.hops, id);
    RefillRecords(c, departed, d, id);
    SameTwice(s, worked, departed, id);
    SameTwice(s, departed, Refill(c, departed, d), id);
  }

  lemma ArrivalRecords(c: Config, s: State, d: Draws, id: nat)
    requires id !in Ids(s.epoch) && id < s.next
    ensures SameRecords(s, OnArrival(c, s, d), id)
  {
    hide Insert, Place, Push;
    var born, frame := Capture(c, s), Frame(s.clock, s.next);
    SamePlacesThere(s, born, id);
    PlaceRecords(c, born, frame, d, id);
    PushRecords(Place(c, born, frame, d), s.clock + d.gap, Arrival, id);
  }

  /** The records of a frame at the subscriber are never touched again. */
  lemma StepRecords(c: Config, s: State, d: Draws, id: nat)
    requires Live(c, s) && Conserved(s) && AtSubscriber(s, id) >= 1
    ensures SameRecords(s, Step(c, s, d), id)
  {
    hide Insert, OnArrival, OnDone, Sample, Refill, Dispatch, OnDeliver, AtSubscriber, Conserved, SameRecords, Push;
    ReceivedIsElsewhere(s, id);
    var p := Pop(s);
    assert SameRecords(s, p, id) by { PopRecords(s, id); }
    assert !Carries(s.queue[0], id);
    match s.queue[0].event
    case Arrival =>
      ArrivalRecords(c, p, d, id);
      SameTwice(s, p, OnArrival(c, p, d), id);
    case EpochTimer(_) =>
      DispatchRecords(c, p, ByWindow, d.lock, id);
      SameTwice(s, p, Dispatch(c, p, p.clock, ByWindow, d.lock), id);
    case ServerDone(items, service) =>
      DoneRecords(c, p, items, service, d, id);
      SameTwice(s, p, OnDone(c, p, items, service, d), id);
    case ServerFailed(_) =>
      OnlyLists(p, Release(p), id);
      RefillRecords(c, Release(p), d, id);
      SameTwice(s, p, Release(p), id);
      SameTwice(s, Release(p), Refill(c, Release(p), d), id);
    case Deliver(frame) =>
      DeliverRecords(c, p, frame, id);
      SameTwice(s, p, OnDeliver(c, p, frame), id);
    case Consume =>
      SampleRecords(c, p, id);
      PushRecords(Sample(c, p), p.clock + c.period, Consume, id);
      SameTwice(s, p, Sample(c, p), id);
      SameTwice(s, Sample(c, p), Push(Sample(c, p), p.clock + c.period, Consume), id);
  }

  lemma PopRecords(s: State, id: nat)
    requires s.queue != []
    ensures SameRecords(s, Pop(s), id)
  {
  }

  // --- every receipt ------------------------------------------------------------------------

  /** Batch wait, service and transport delay, plus the skew. */
  ghost predicate WellReceived(c: Config, s: State, id: nat) {
    && id in s.received && id in s.captures && id in s.log.flights && id in s.log.delays
    && s.received[id] == (s.log.flights[id].closedAt - s.captures[id] + s.log.flights[id].service + s.log.delays[id]) * 1000.0 + c.skew
  }

  ghost predicate Receipted(c: Config, s: State) {
    forall id :: id in s.received ==> WellReceived(c, s, id) && AtSubscriber(s, id) >= 1
  }

  lemma StaysReceived(c: Config, s: State, t: State, id: nat)
    requires SameRecords(s, t, id) && WellReceived(c, s, id)
    ensures WellReceived(c, t, id)
  {
    hide AtSubscriber;
  }

  /** A delivery records the age of the frame that lands. */
  lemma DeliveredNow(c: Config, s: State, frame: nat)
    requires Lands(BookOf(s), frame, s.clock) && frame in s.captures && Places(s, frame) == 0
    ensures WellReceived(c, OnDeliver(c, s, frame), frame) && AtSubscriber(OnDeliver(c, s, frame), frame) >= 1
  {
    DeliverRecords(c, s, frame, frame);
    OfOther(frame, frame);
  }

  lemma OnlyDeliveriesReceive(c: Config, s: State, d: Draws)
    requires Live(c, s)
    ensures forall id :: id in Step(c, s, d).received ==> id in s.received || s.queue[0].event == Deliver(id)
    ensures s.queue[0].event.Deliver? ==> Step(c, s, d) == OnDeliver(c, Pop(s), s.queue[0].event.id)
    ensures s.queue[0].event.Deliver? && s.queue[0].event.id !in s.captures ==> Step(c, s, d).received == s.received
  {
    hide Insert, Place, Refill, Depart, Dispatch, Sample;
    var p := Pop(s);
    match s.queue[0].event
    case Arrival => PlaceTouches(c, Capture(c, p), Frame(p.clock, p.next), d);
    case EpochTimer(_) => DispatchTouches(c, p, p.clock, ByWindow, d.lock);
    case ServerDone(items, service) =>
      DepartTouches(c, Credit(c, Release(p), service), items, |items|, d.hops);
      RefillTouches(c, Depart(c, Credit(c, Release(p), service), items, |items|, d.hops), d);
    case ServerFailed(_) => RefillTouches(c, Release(p), d);
    case Deliver(id) =>
    case Consume => SampleTouches(c, p);
  }

  lemma FlyingIsNowhereElse(s: State)
    requires Conserved(s) && s.queue != [] && s.queue[0].event.Deliver?
    ensures Places(Pop(s), s.queue[0].event.id) == 0
  {
    hide Total;
    var id := s.queue[0].event.id;
    PopPlaces(s, id);
    PlacesAreNonNegative(Pop(s), id);
    assert Flying(id)(s.queue[0]) == 1 && Serving(id)(s.queue[0]) == 0;
  }

  lemma StepReceipted(c: Config, s: State, d: Draws)
    requires c.Ok() && Orderly(c, s) && Conserved(s) && Traced(c, s) && Receipted(c, s) && Live(c, s)
    ensures Receipted(c, Step(c, s, d))
  {
    hide Insert, Step, Conserved, WellReceived, AtSubscriber, Orderly, Traced, Places, Lands;
    var t := Step(c, s, d);
    OnlyDeliveriesReceive(c, s, d);
    forall id | id in t.received
      ensures WellReceived(c, t, id) && AtSubscriber(t, id) >= 1
    {
      if id in s.received {
        StepRecords(c, s, d, id);
        StaysReceived(c, s, t, id);
      } else {
        LandsNow(c, s, id);
        FlyingIsNowhereElse(s);
        DeliveredNow(c, Pop(s), id);
      }
    }
  }

  lemma LandsNow(c: Config, s: State, id: nat)
    requires c.Ok() && Orderly(c, s) && Traced(c, s) && s.queue != [] && s.queue[0].event == Deliver(id)
    ensures Lands(BookOf(Pop(s)), id, Pop(s).clock)
  {
    hide Calendar, Armed, Open, Closed, Tracked;
    PopEffect(c, s);
    PopTraced(c, s);
  }

  lemma StartReceipted(c: Config, gap: real)
    ensures Receipted(c, Start(c, gap))
  {
    hide Insert;
  }

  lemma {:induction false} RunIsReceipted(c: Config, draws: nat -> Draws, n: nat)
    requires c.Ok() && Proper(draws)
    ensures Receipted(c, Run(c, draws, n))
  {
    hide Step, Start, Receipted, Orderly, Traced, Conserved;
    if n == 0 {
      StartReceipted(c, draws(0).gap);
    } else {
      RunIsReceipted(c, draws, n - 1);
      RunIsOrderly(c, draws, n - 1);
      RunConserves(c, draws, n - 1);
      RunIsTraced(c, draws, n - 1);
      if Live(c, Run(c, draws, n - 1)) {
        StepReceipted(c, Run(c, draws, n - 1), draws(n));
      }
    }
  }

  /** Every recorded age at receipt, of frames in the buffer, consumed, superseded or evicted, is batch wait, service and transport delay, plus the skew. */
  lemma DeliveryIdentity(c: Config, draws: nat -> Draws, n: nat, id: nat)
    requires c.Ok() && Proper(draws)
    ensures var s := Run(c, draws, n);
            id in s.received ==>
              && id in s.captures && id in s.log.flights && id in s.log.delays
              && var f := s.log.flights[id];
                 s.received[id] == (f.closedAt - s.captures[id] + f.service + s.log.delays[id]) * 1000.0 + c.skew
  {
    hide Run, AtSubscriber;
    RunIsReceipted(c, draws, n);
  }

  // --- the series of ages at receipt --------------------------------------------------------

  /** The ages at receipt of the measured frames, of those that have one. */
  function AgesAtReceipt(measured: seq<nat>, received: map<nat, real>): seq<real> {
    if measured == [] then []
    else
      var id := measured[|measured| - 1];
      AgesAtReceipt(measured[..|measured| - 1], received) + if id in received then [received[id]] else []
  }

  lemma {:induction false} SameAges(measured: seq<nat>, received: map<nat, real>, later: map<nat, real>)
    requires forall id :: id in measured ==> (id in received <==> id in later) && (id in received ==> later[id] == received[id])
    ensures AgesAtReceipt(measured, later) == AgesAtReceipt(measured, received)
  {
    if measured != [] {
      assert measured[|measured| - 1] in measured;
      SameAges(measured[..|measured| - 1], received, later);
    }
  }

  ghost predicate AgesReported(s: State) {
    s.stats.deliveryAges == AgesAtReceipt(s.log.measured, s.received) && forall id :: id in s.log.measured ==> id in s.log.consumed
  }

  /** What one more measured frame adds to the series. */
  ghost predicate Adds(s: State, t: State) {
    && t.received == s.received && t.log.measured != [] && t.log.measured[..|t.log.measured| - 1] == s.log.measured
    && var id := t.log.measured[|t.log.measured| - 1];
       id in t.log.consumed && t.stats.deliveryAges == s.stats.deliveryAges + if id in s.received then [s.received[id]] else []
  }

  lemma SampleAdds(c: Config, s: State)
    ensures var t := Sample(c, s);
            && (Adds(s, t) || (t.log.measured == s.log.measured && t.stats.deliveryAges == s.stats.deliveryAges))
            && forall id :: id in s.log.consumed ==> id in t.log.consumed
  {
    hide EffectiveAge, Exceeds, BufferedIds;
    if s.buffer != [] {
      var newest := s.buffer[|s.buffer| - 1].1;
      assert (s.log.measured + [newest])[..|s.log.measured|] == s.log.measured;
    }
  }

  /** A tick appends at most the age of the frame it measures; no other event does. */
  lemma OnlyTicksReport(c: Config, s: State, d: Draws)
    requires Live(c, s)
    ensures var t := Step(c, s, d);
            && (Adds(s, t) || (t.log.measured == s.log.measured && t.stats.deliveryAges == s.stats.deliveryAges))
            && forall id :: id in s.log.consumed ==> id in t.log.consumed
  {
    hide Insert, Place, Refill, Depart, Dispatch, Sample, OnDeliver;
    var p := Pop(s);
    match s.queue[0].event
    case Arrival => PlaceTouches(c, Capture(c, p), Frame(p.clock, p.next), d);
    case EpochTimer(_) => DispatchTouches(c, p, p.clock, ByWindow, d.lock);
    case ServerDone(items, service) =>
      DepartTouches(c, Credit(c, Release(p), service), items, |items|, d.hops);
      RefillTouches(c, Depart(c, Credit(c, Release(p), service), items, |items|, d.hops), d);
    case ServerFailed(_) => RefillTouches(c, Release(p), d);
    case Deliver(id) => DeliverTouches(c, p, id);
    case Consume => SampleAdds(c, p);
  }

  lemma ConsumedIsThere(s: State, id: nat)
    requires id in s.log.consumed
    ensures AtSubscriber(s, id) >= 1
  {
  }

  lemma StepReports(c: Config, s: State, d: Draws)
    requires Live(c, s) && Conserved(s) && AgesReported(s)
    ensures AgesReported(Step(c, s, d))
  {
    hide Step, Conserved, AtSubscriber, AgesAtReceipt;
    var t := Step(c, s, d);
    OnlyTicksReport(c, s, d);
    forall id | id in s.log.measured
      ensures (id in s.received <==> id in t.received) && (id in s.received ==> t.received[id] == s.received[id])
    {
      ConsumedIsThere(s, id);
      StepRecords(c, s, d, id);
    }
    SameAges(s.log.measured, s.received, t.received);
    if t.log.measured != s.log.measured {
      OneMoreAge(t.log.measured, t.received);
    }
  }

  lemma OneMoreAge(measured: seq<nat>, received: map<nat, real>)
    requires measured != []
    ensures var id := measured[|measured| - 1];
            AgesAtReceipt(measured, received) == AgesAtReceipt(measured[..|measured| - 1], received) + if id in received then [received[id]] else []
    ensures forall x :: x in measured ==> x in measured[..|measured| - 1] || x == measured[|measured| - 1]
  {
  }

  lemma StartReports(c: Config, gap: real)
    ensures AgesReported(Start(c, gap))
  {
    hide Insert;
  }

  /** In every run the reported ages at receipt are those of the measured frames, in their order. */
  lemma {:induction false} AgesAtReceiptAreReported(c: Config, draws: nat -> Draws, n: nat)
    requires c.Ok() && Proper(draws)
    ensures AgesReported(Run(c, draws, n))
  {
    hide Step, Start, AgesReported, Conserved;
    if n == 0 {
      StartReports(c, draws(0).gap);
    } else {
      AgesAtReceiptAreReported(c, draws, n - 1);
      RunConserves(c, draws, n - 1);
      if Live(c, Run(c, draws, n - 1)) {
        StepReports(c, Run(c, draws, n - 1), draws(n));
      }
    }
  }
}
