/**
 What every event hands to a worker, and what becomes of it: which frames make the batch, how
 long it takes, which mechanism it dies of, and what the link does with its frames. Told by the
 state before the event, the parameters and the draws.
 */
module Requests {
  import opened Wrappers
  import opened Events
  import opened Pipeline
  import opened Discipline
  import opened Effects

  predicate Reports(e: Event) { e.ServerDone? || e.ServerFailed? }

  /** The frames that an event hands to a worker: a full epoch, one whose window is over, or what waits when a worker reports back. */
  function Handed(c: Config, s: State): seq<Frame>
    requires s.queue != []
  {
    match s.queue[0].event
    case Arrival => if s.busy < c.workers && |s.epoch| + 1 >= c.maxBatch then s.epoch + [Frame(s.queue[0].time, s.next)] else []
    case EpochTimer(generation) => if generation == s.generation then s.epoch else []
    case ServerDone(_, _) => FromBacklog(c, s)
    case ServerFailed(_) => FromBacklog(c, s)
    case _ => []
  }

  function FromBacklog(c: Config, s: State): seq<Frame> {
    if |s.pending| >= c.maxBatch then s.pending[..c.maxBatch] else if s.pending == [] then s.epoch else []
  }

  /** The backlog and the open epoch after the event. */
  ghost predicate StillWaits(c: Config, s: State, t: State)
    requires s.queue != []
  {
    var e, newcomer := s.queue[0].event, [Frame(s.queue[0].time, s.next)];
    if e.Arrival? && s.busy >= c.workers then t.pending == s.pending + newcomer && t.epoch == s.epoch
    else if e.Arrival? then t.pending == s.pending && t.epoch == if Handed(c, s) == [] then s.epoch + newcomer else []
    else if Reports(e) && s.pending != [] then
      if |s.pending| >= c.maxBatch then t.pending == s.pending[c.maxBatch..] && t.epoch == []
      else t.pending == [] && t.epoch == s.pending
    else t.pending == s.pending && t.epoch == if Handed(c, s) == [] then s.epoch else []
  }

  // --- a request ------------------------------------------------------------------------

  /** The mechanism a request dies of, if any: the first that applies. */
  ghost predicate Dies(c: Config, failure: Option<Mechanism>, lockWait: real, latency: real) {
    && (failure == Some(ResourceExhaustion) <==> c.pressure > 1.0)
    && (failure == Some(LockContention) <==> c.pressure <= 1.0 && 0.0 < c.lockPatience < lockWait)
    && (failure == Some(DependencyTimeout) <==>
          c.pressure <= 1.0 && !(0.0 < c.lockPatience < lockWait) && 0.0 < c.timeout < latency)
    && (failure == Some(PoolExhaustion) <==>
          c.pressure <= 1.0 && !(0.0 < c.lockPatience < lockWait) && !(0.0 < c.timeout < latency) && 0.0 < c.poolSize < c.poolDemand)
  }

  /** The lock is met when the draw falls below its probability, and held for as long as its holder keeps it. */
  ghost predicate Waits(c: Config, lock: real, lockWait: real) {
    lockWait == if c.lockProb > 0.0 && lock < c.lockProb then c.lockHold else 0.0
  }

  /** The time a batch of `n` takes. */
  ghost predicate Takes(c: Config, n: nat, service: real) {
    service == c.base + n as real * c.perItem + c.penalty * c.pressure
  }

  /** Between `s` and `t` one worker has been given `items`; `report` is when it comes back. */
  ghost predicate Asked(c: Config, lock: real, now: real, items: seq<Frame>, s: State, t: State, report: Entry) {
    && items != [] && t.log.dispatched == s.log.dispatched + Ids(items) && t.stats.requests == s.stats.requests + 1
    && t.log.batches != [] && t.log.batches[..|t.log.batches| - 1] == s.log.batches
    && Handled(c, lock, now, items, t.log.batches[|t.log.batches| - 1], s, t, report)
    && forall x: Entry :: Reports(x.event) ==> (x in t.queue <==> x in s.queue || x == report)
  }

  ghost predicate Handled(c: Config, lock: real, now: real, items: seq<Frame>, b: Batch, s: State, t: State, report: Entry)
    requires items != []
  {
    && b.closedAt == now && b.size == |items|
    && exists lockWait, service ::
         && Waits(c, lock, lockWait) && Takes(c, |items|, service)
         && Dies(c, b.failure, lockWait, now - items[0].capture + lockWait + service)
         && (if b.failure.Some? then Lost(now, items, s, t, report) else Served(now, items, lockWait, service, s, t, report))
  }

  /** A request that lives keeps its worker for the service time. */
  ghost predicate Served(now: real, items: seq<Frame>, lockWait: real, service: real, s: State, t: State, report: Entry) {
    && report.time == now + service && report.event == ServerDone(items, service)
    && t.stats.served == s.stats.served + |items| && t.stats.failed == s.stats.failed && t.log.failed == s.log.failed
    && forall id :: (id in t.log.flights <==> id in s.log.flights || id in Ids(items))
         && (id in t.log.flights ==> t.log.flights[id] == if id in Ids(items) then Flight(now, lockWait, service, |items|) else s.log.flights[id])
  }

  /** One that dies gives the worker back at once, and its frames are lost. */
  ghost predicate Lost(now: real, items: seq<Frame>, s: State, t: State, report: Entry) {
    && report.time == now && report.event == ServerFailed(items)
    && t.stats.served == s.stats.served && t.stats.failed == s.stats.failed + 1 && t.log.failed == s.log.failed + Ids(items)
    && t.log.flights == s.log.flights
  }

  /** No request is made. */
  ghost predicate Quiet(s: State, t: State) {
    && t.log.dispatched == s.log.dispatched && t.stats.requests == s.stats.requests && t.log.batches == s.log.batches
    && t.stats.served == s.stats.served && t.stats.failed == s.stats.failed && t.log.failed == s.log.failed
    && t.log.flights == s.log.flights
    && forall x: Entry :: Reports(x.event) ==> (x in t.queue <==> x in s.queue)
  }

  lemma QuietTwice(s: State, t: State, u: State)
    requires Quiet(s, t) && Quiet(t, u)
    ensures Quiet(s, u)
  {
  }

  lemma QuietAround(c: Config, lock: real, now: real, items: seq<Frame>, s: State, u: State, v: State, t: State, report: Entry)
    requires Quiet(s, u) && Asked(c, lock, now, items, u, v, report) && Quiet(v, t)
    ensures Asked(c, lock, now, items, s, t, report)
  {
    hide Dies, Takes, Waits;
  }

  lemma PushIsQuiet(s: State, t: real, event: Event)
    requires !Reports(event)
    ensures Quiet(s, Push(s, t, event))
  {
    hide Insert;
    InsertMembers(s.queue, Entry(t, s.stamp + 1, event));
  }

  lemma StartEpochIsQuiet(c: Config, s: State)
    ensures Quiet(s, StartEpoch(c, s, s.clock))
  {
    hide Insert;
    var due := if c.window > 0.0 then s.clock + c.window else s.clock;
    InsertMembers(s.queue, Entry(due, s.stamp + 1, EpochTimer(s.generation + 1)));
  }

  // --- a dispatch makes one request ----------------------------------------------------------

  lemma VerdictIsTheFirst(c: Config, items: seq<Frame>, now: real, lock: real)
    requires c.Ok() && items != []
    ensures var lockWait, service := LockWait(c, lock), ServiceTime(c, |items|);
            && Waits(c, lock, lockWait) && Takes(c, |items|, service)
            && Dies(c, Failure(c, now - items[0].capture + lockWait + service, lockWait), lockWait, now - items[0].capture + lockWait + service)
  {
  }

  lemma DispatchAsks(c: Config, s: State, reason: Reason, lock: real) returns (report: Entry)
    requires c.Ok() && s.epoch != [] && s.busy < c.workers
    ensures var t := Dispatch(c, s, s.clock, reason, lock);
            Asked(c, lock, s.clock, s.epoch, s, t, report) && t.pending == s.pending && t.epoch == []
  {
    hide Insert, Close, Fail, Serve, ServiceTime, LockWait, Failure, Dies, Waits, Takes, Lost, Served;
    var items, now := s.epoch, s.clock;
    var lockWait, service := LockWait(c, lock), ServiceTime(c, |items|);
    VerdictIsTheFirst(c, items, now, lock);
    var verdict := Verdict(c, s, now, lock);
    var closed := Close(s, now, reason, verdict);
    CloseHandsOver(s, now, reason, verdict);
    match verdict
    case Some(m) => report := FailIsLost(s, closed, items, now, m);
    case None => report := ServeIsServed(s, closed, items, now, reason, lockWait, service);
  }

  lemma CloseHandsOver(s: State, now: real, reason: Reason, failure: Option<Mechanism>)
    ensures var t, b := Close(s, now, reason, failure), Batch(s.log.openedAt, now, |s.epoch|, reason, failure);
            && t.log.batches == s.log.batches + [b] && t.log.dispatched == s.log.dispatched + Ids(s.epoch)
            && t.stats == s.stats.(requests := s.stats.requests + 1) && t.log.failed == s.log.failed && t.log.flights == s.log.flights
            && t.queue == s.queue && t.pending == s.pending && t.epoch == []
  {
  }

  /** Two states that differ by more than what they say of the request itself. */
  ghost predicate Handover(s: State, t: State) {
    && t.log.batches == s.log.batches && t.log.dispatched == s.log.dispatched && t.stats.requests == s.stats.requests
    && t.pending == s.pending && t.epoch == s.epoch
  }

  lemma FailIsLost(s: State, closed: State, items: seq<Frame>, now: real, m: Mechanism) returns (report: Entry)
    requires closed.queue == s.queue && closed.log.failed == s.log.failed && closed.log.flights == s.log.flights
    requires closed.stats.served == s.stats.served && closed.stats.failed == s.stats.failed
    ensures var t := Fail(closed, items, now, m);
            && Lost(now, items, s, t, report) && Handover(closed, t)
            && forall x: Entry :: Reports(x.event) ==> (x in t.queue <==> x in s.queue || x == report)
  {
    hide Insert, Ids, Count;
    report := Entry(now, closed.stamp + 1, ServerFailed(items));
    InsertMembers(s.queue, report);
  }

  lemma ServeIsServed(s: State, closed: State, items: seq<Frame>, now: real, reason: Reason, lockWait: real, service: real) returns (report: Entry)
    requires closed.queue == s.queue && closed.log.failed == s.log.failed && closed.log.flights == s.log.flights
    requires closed.stats.served == s.stats.served && closed.stats.failed == s.stats.failed
    ensures var t := Serve(closed, items, now, reason, lockWait, service);
            && Served(now, items, lockWait, service, s, t, report) && Handover(closed, t)
            && forall x: Entry :: Reports(x.event) ==> (x in t.queue <==> x in s.queue || x == report)
  {
    hide Insert, Record, Board, Ids;
    report := Entry(now + service, closed.stamp + 1, ServerDone(items, service));
    InsertMembers(s.queue, report);
    BoardIsExact(items, Flight(now, lockWait, service, |items|), s.log.flights);
  }

  lemma BoardIsExact(items: seq<Frame>, flight: Flight, m: map<nat, Flight>)
    ensures var r := Board(items, flight, m);
            forall id :: (id in r <==> id in m || id in Ids(items)) && (id in r ==> r[id] == if id in Ids(items) then flight else m[id])
  {
    hide Ids;
  }

  // --- the handlers ------------------------------------------------------------------------------

  /** Either one request is made, of the frames handed over, or none. */
  ghost predicate Lawful(c: Config, lock: real, now: real, items: seq<Frame>, s: State, t: State) {
    if items == [] then Quiet(s, t) else exists report :: Asked(c, lock, now, items, s, t, report)
  }

  lemma PlaceIsLawful(c: Config, s: State, frame: Frame, d: Draws)
    requires c.Ok()
    ensures var t, full := Place(c, s, frame, d), s.busy < c.workers && |s.epoch| + 1 >= c.maxBatch;
            && Lawful(c, d.lock, s.clock, if full then s.epoch + [frame] else [], s, t)
            && (if s.busy >= c.workers then t.pending == s.pending + [frame] && t.epoch == s.epoch
                else t.pending == s.pending && t.epoch == if full then [] else s.epoch + [frame])
  {
    hide Asked, Quiet, StartEpoch, Dispatch;
    assert Quiet(s, s.(pending := s.pending + [frame])) by { ListsAreQuiet(s, s.(pending := s.pending + [frame])); }
    if s.busy < c.workers {
      var open := if s.epoch == [] then StartEpoch(c, s, s.clock) else s;
      StartEpochIsQuiet(c, s);
      StartEpochTouches(c, s, s.clock);
      ListsAreQuiet(s, s);
      var joined := open.(epoch := open.epoch + [frame]);
      ListsAreQuiet(open, joined);
      QuietTwice(s, open, joined);
      if |joined.epoch| >= c.maxBatch {
        var report := DispatchAsks(c, joined, BySize, d.lock);
        var t := Dispatch(c, joined, s.clock, BySize, d.lock);
        ListsAreQuiet(t, t);
        QuietAround(c, d.lock, s.clock, joined.epoch, s, joined, t, t, report);
      }
    }
  }

  /** Moving frames between backlog and epoch makes no request. */
  lemma ListsAreQuiet(s: State, t: State)
    requires t == s.(epoch := t.epoch, pending := t.pending)
    ensures Quiet(s, t)
  {
  }

  lemma RefillIsLawful(c: Config, s: State, d: Draws)
    requires c.Ok() && s.busy < c.workers
    ensures Lawful(c, d.lock, s.clock, FromBacklog(c, s), s, Refill(c, s, d)) && Drawn(c, s, Refill(c, s, d))
  {
    hide Asked, Quiet, StartEpoch, Dispatch;
    ListsAreQuiet(s, s);
    if s.pending != [] {
      var open := StartEpoch(c, s, s.clock);
      StartEpochIsQuiet(c, s);
      StartEpochTouches(c, s, s.clock);
      var filled := Fill(c, open);
      ListsAreQuiet(open, filled);
      QuietTwice(s, open, filled);
      assert |s.pending| < c.maxBatch ==> s.pending[..|s.pending|] == s.pending;
      if |filled.epoch| >= c.maxBatch {
        var report := DispatchAsks(c, filled, BySize, d.lock);
        var t := Dispatch(c, filled, s.clock, BySize, d.lock);
        ListsAreQuiet(t, t);
        QuietAround(c, d.lock, s.clock, filled.epoch, s, filled, t, t, report);
      }
    } else if s.epoch != [] {
      var report := DispatchAsks(c, s, BySize, d.lock);
    }
  }

  lemma {:induction false} DepartIsQuiet(c: Config, s: State, items: seq<Frame>, k: nat, hops: nat -> Hop)
    requires k <= |items|
    ensures Quiet(s, Depart(c, s, items, k, hops))
  {
    hide Delay, Launch, Lose, Quiet;
    if k > 0 {
      var t := Depart(c, s, items, k - 1, hops);
      var id, delay := items[k - 1].id, Delay(c, hops(k - 1));
      DepartIsQuiet(c, s, items, k - 1, hops);
      HopIsQuiet(t, id, delay);
      QuietTwice(s, t, Lose(t, id));
      QuietTwice(s, t, Launch(t, id, delay));
    } else {
      ListsAreQuiet(s, s);
    }
  }

  lemma HopIsQuiet(s: State, id: nat, delay: real)
    ensures Quiet(s, Lose(s, id)) && Quiet(s, Launch(s, id, delay))
  {
    hide Insert;
    InsertMembers(s.queue, Entry(s.clock + delay, s.stamp + 1, Deliver(id)));
  }

  lemma LawfulAround(c: Config, lock: real, now: real, items: seq<Frame>, s: State, u: State, v: State, t: State)
    requires Quiet(s, u) && Lawful(c, lock, now, items, u, v) && Quiet(v, t)
    ensures Lawful(c, lock, now, items, s, t)
  {
    hide Asked, Quiet;
    if items == [] {
      QuietTwice(s, u, v);
      QuietTwice(s, v, t);
    } else {
      var report :| Asked(c, lock, now, items, u, v, report);
      QuietAround(c, lock, now, items, s, u, v, t, report);
    }
  }

  /** What a worker that reports back leaves waiting. */
  ghost predicate Drawn(c: Config, s: State, t: State) {
    if s.pending == [] then t.pending == [] && t.epoch == []
    else if |s.pending| >= c.maxBatch then t.pending == s.pending[c.maxBatch..] && t.epoch == []
    else t.pending == [] && t.epoch == s.pending
  }

  lemma RefilledIsLawful(c: Config, p: State, u: State, d: Draws)
    requires c.Ok() && Quiet(p, u) && u.busy < c.workers && u.pending == p.pending && u.epoch == p.epoch && u.clock == p.clock
    ensures Lawful(c, d.lock, p.clock, FromBacklog(c, p), p, Refill(c, u, d)) && Drawn(c, p, Refill(c, u, d))
  {
    hide Refill, Lawful, Quiet;
    var t := Refill(c, u, d);
    RefillIsLawful(c, u, d);
    ListsAreQuiet(t, t);
    LawfulAround(c, d.lock, p.clock, FromBacklog(c, p), p, u, t, t);
  }

  lemma ReportIsLawful(c: Config, s: State, p: State, d: Draws)
    requires c.Ok() && Orderly(c, s) && Live(c, s) && Reports(s.queue[0].event) && p == Pop(s)
    ensures Lawful(c, d.lock, p.clock, FromBacklog(c, s), p, Step(c, s, d)) && Drawn(c, s, Step(c, s, d))
  {
    hide Insert, Refill, Depart, Orderly, Lawful, Quiet, Drawn, Credit;
    PopKeeps(c, s);
    DrawnAlike(c, s, p, Step(c, s, d));
    var u := Release(p);
    match s.queue[0].event
    case ServerFailed(_) =>
      ReleaseIsQuiet(p);
      RefilledIsLawful(c, p, u, d);
    case ServerDone(items, service) =>
      var worked := Credit(c, u, service);
      var departed := Depart(c, worked, items, |items|, d.hops);
      DepartTouches(c, worked, items, |items|, d.hops);
      DepartIsQuiet(c, worked, items, |items|, d.hops);
      CreditIsQuiet(c, p, service);
      QuietTwice(p, worked, departed);
      RefilledIsLawful(c, p, departed, d);
  }

  lemma DrawnAlike(c: Config, s: State, p: State, t: State)
    requires s.pending == p.pending
    ensures Drawn(c, p, t) <==> Drawn(c, s, t)
  {
  }

  lemma ReleaseIsQuiet(s: State)
    ensures Quiet(s, Release(s))
  {
  }

  lemma CreditIsQuiet(c: Config, s: State, service: real)
    ensures var t := Credit(c, Release(s), service);
            Quiet(s, t) && t.pending == s.pending && t.epoch == s.epoch && t.clock == s.clock && t.busy == Release(s).busy
  {
  }

  lemma ArrivalIsLawful(c: Config, s: State, p: State, d: Draws)
    requires c.Ok() && Live(c, s) && s.queue[0].event.Arrival? && p == Pop(s)
    ensures Lawful(c, d.lock, p.clock, Handed(c, s), p, Step(c, s, d)) && StillWaits(c, s, Step(c, s, d))
  {
    hide Insert, Place, Asked, Push, Lawful;
    var born, frame := Capture(c, p), Frame(p.clock, p.next);
    PlaceIsLawful(c, born, frame, d);
    var placed := Place(c, born, frame, d);
    PushIsQuiet(placed, p.clock + d.gap, Arrival);
    PlaceTouches(c, born, frame, d);
    CaptureIsQuiet(c, p);
    PushTouches(placed, p.clock + d.gap, Arrival);
    LawfulAround(c, d.lock, p.clock, Handed(c, s), p, born, placed, Push(placed, p.clock + d.gap, Arrival));
  }

  lemma CaptureIsQuiet(c: Config, s: State)
    ensures Quiet(s, Capture(c, s))
  {
  }

  lemma PushTouches(s: State, t: real, event: Event)
    ensures Push(s, t, event).pending == s.pending && Push(s, t, event).epoch == s.epoch
  {
    hide Insert;
  }

  /**
   Every event of a run hands over the frames that it should, in one request or none, and leaves
   the others waiting in their order.
   */
  lemma EveryEventIsLawful(c: Config, s: State, d: Draws)
    requires c.Ok() && Orderly(c, s) && Live(c, s)
    ensures Lawful(c, d.lock, s.queue[0].time, Handed(c, s), Pop(s), Step(c, s, d)) && StillWaits(c, s, Step(c, s, d))
  {
    hide Insert, Place, Refill, Depart, Dispatch, Sample, OnDeliver, Asked, Push, Orderly, Lawful, Quiet;
    var p := Pop(s);
    match s.queue[0].event
    case Arrival => ArrivalIsLawful(c, s, p, d);
    case EpochTimer(generation) => TimerIsLawful(c, s, p, d);
    case ServerDone(_, _) => ReportIsLawful(c, s, p, d);
    case ServerFailed(_) => ReportIsLawful(c, s, p, d);
    case Deliver(id) =>
      DeliverIsQuiet(c, p, id);
      NothingIsLawful(c, d.lock, p.clock, p, Step(c, s, d));
    case Consume =>
      SampleIsQuiet(c, p);
      PushIsQuiet(Sample(c, p), p.clock + c.period, Consume);
      PushTouches(Sample(c, p), p.clock + c.period, Consume);
      SampleTouches(c, p);
      QuietTwice(p, Sample(c, p), Step(c, s, d));
      NothingIsLawful(c, d.lock, p.clock, p, Step(c, s, d));
  }

  lemma NothingIsLawful(c: Config, lock: real, now: real, s: State, t: State)
    requires Quiet(s, t)
    ensures Lawful(c, lock, now, [], s, t)
  {
  }

  lemma DeliverIsQuiet(c: Config, s: State, id: nat)
    ensures var t := OnDeliver(c, s, id); Quiet(s, t) && t.pending == s.pending && t.epoch == s.epoch
  {
    DeliverTouches(c, s, id);
  }

  lemma SampleIsQuiet(c: Config, s: State)
    ensures Quiet(s, Sample(c, s))
  {
    SampleTouches(c, s);
  }

  lemma TimerIsLawful(c: Config, s: State, p: State, d: Draws)
    requires c.Ok() && Orderly(c, s) && Live(c, s) && s.queue[0].event.EpochTimer? && p == Pop(s)
    ensures Lawful(c, d.lock, p.clock, Handed(c, s), p, Step(c, s, d)) && StillWaits(c, s, Step(c, s, d))
  {
    hide Insert, Dispatch, Asked;
    ListsAreQuiet(p, p);
    if s.queue[0].event.generation == s.generation && s.epoch != [] {
      var report := DispatchAsks(c, p, ByWindow, d.lock);
    }
  }

  // --- whole runs ------------------------------------------------------------------------------

  /** In every run. */
  lemma EveryRunIsLawful(c: Config, draws: nat -> Draws, n: nat)
    requires c.Ok() && Proper(draws) && Live(c, Run(c, draws, n))
    ensures var s, t := Run(c, draws, n), Run(c, draws, n + 1);
            Lawful(c, draws(n + 1).lock, s.queue[0].time, Handed(c, s), Pop(s), t) && StillWaits(c, s, t)
  {
    hide Step, Orderly, Lawful, StillWaits, Handed;
    RunIsOrderly(c, draws, n);
    EveryEventIsLawful(c, Run(c, draws, n), draws(n + 1));
  }

  /** Every outstanding completion and every recorded flight took what its batch takes, and met the lock for as long as it is held or not at all. */
  ghost predicate OnTime(c: Config, s: State) {
    && (forall e :: e in s.queue && e.event.ServerDone? ==> Takes(c, |e.event.items|, e.event.service))
    && (forall id :: id in s.log.flights ==>
          Takes(c, s.log.flights[id].size, s.log.flights[id].service) && (s.log.flights[id].lockWait == 0.0 || s.log.flights[id].lockWait == c.lockHold))
  }

  lemma LawfulIsOnTime(c: Config, lock: real, now: real, items: seq<Frame>, s: State, t: State)
    requires OnTime(c, s) && Lawful(c, lock, now, items, s, t)
    ensures OnTime(c, t)
  {
    hide Takes, Dies;
    forall e | e in t.queue && e.event.ServerDone?
      ensures Takes(c, |e.event.items|, e.event.service)
    {
      assert Reports(e.event);
    }
  }

  lemma StartIsOnTime(c: Config, gap: real)
    ensures OnTime(c, Start(c, gap))
  {
    hide Insert;
    InsertMembers([], Entry(gap, 1, Arrival));
    InsertMembers(Insert([], Entry(gap, 1, Arrival)), Entry(0.0, 2, Consume));
  }

  lemma PopIsOnTime(c: Config, s: State)
    requires OnTime(c, s) && s.queue != []
    ensures OnTime(c, Pop(s))
  {
    hide Takes;
  }

  lemma {:induction false} RunIsOnTime(c: Config, draws: nat -> Draws, n: nat)
    requires c.Ok() && Proper(draws)
    ensures OnTime(c, Run(c, draws, n))
  {
    hide Step, Start, Lawful, OnTime, Handed;
    if n == 0 {
      StartIsOnTime(c, draws(0).gap);
    } else {
      RunIsOnTime(c, draws, n - 1);
      var s := Run(c, draws, n - 1);
      if Live(c, s) {
        EveryRunIsLawful(c, draws, n - 1);
        PopIsOnTime(c, s);
        LawfulIsOnTime(c, draws(n).lock, s.queue[0].time, Handed(c, s), Pop(s), Run(c, draws, n));
      }
    }
  }

  // --- in the units of the parameters ------------------------------------------------------------

  /** The time a batch of `n` takes, in milliseconds: a base, a share for every frame, and a penalty in proportion to the memory pressure. */
  ghost function Milliseconds(p: Params, n: nat): real {
    Max(0.0, p.serviceBaseMs) + n as real * Max(0.0, p.servicePerItemMs)
    + if p.resourceLimitMb > 0.0 then Max(0.0, p.pressurePenaltyMs) * (Max(0.0, p.resourceDemandMb) / p.resourceLimitMb) else 0.0
  }

  lemma TakesMilliseconds(p: Params, r: Request, n: nat, service: real)
    requires Takes(Configure(p, r), n, service)
    ensures service * 1000.0 == Milliseconds(p, n)
  {
    var c := Configure(p, r);
    assert c.base * 1000.0 == Max(0.0, p.serviceBaseMs) && c.perItem * 1000.0 == Max(0.0, p.servicePerItemMs);
    assert c.penalty * 1000.0 == Max(0.0, p.pressurePenaltyMs);
    assert c.pressure == if p.resourceLimitMb > 0.0 then Max(0.0, p.resourceDemandMb) / p.resourceLimitMb else 0.0;
    Spread(n as real, c.perItem);
    Spread(c.penalty, c.pressure);
  }

  lemma Spread(a: real, b: real)
    ensures a * b * 1000.0 == a * (b * 1000.0) == a * 1000.0 * b
  {
  }

  /** In every run, from the parameters: outstanding completions and recorded flights. */
  lemma ServiceInMilliseconds(p: Params, r: Request, draws: nat -> Draws, n: nat)
    requires Proper(draws)
    ensures var s := Run(Configure(p, r), draws, n);
            && (forall e :: e in s.queue && e.event.ServerDone? ==> e.event.service * 1000.0 == Milliseconds(p, |e.event.items|))
            && (forall id :: id in s.log.flights ==> s.log.flights[id].service * 1000.0 == Milliseconds(p, s.log.flights[id].size))
  {
    hide Run, Milliseconds, Takes, Configure;
    var c := Configure(p, r);
    RunIsOnTime(c, draws, n);
    var s := Run(c, draws, n);
    forall e | e in s.queue && e.event.ServerDone?
      ensures e.event.service * 1000.0 == Milliseconds(p, |e.event.items|)
    {
      TakesMilliseconds(p, r, |e.event.items|, e.event.service);
    }
    forall id | id in s.log.flights
      ensures s.log.flights[id].service * 1000.0 == Milliseconds(p, s.log.flights[id].size)
    {
      TakesMilliseconds(p, r, s.log.flights[id].size, s.log.flights[id].service);
    }
  }

  /** Batches that differ by some frames differ by as many shares. */
  lemma EveryFrameTakesItsShare(p: Params, r: Request, draws: nat -> Draws, n: nat, a: nat, b: nat)
    requires Proper(draws)
    requires var flights := Run(Configure(p, r), draws, n).log.flights; a in flights && b in flights
    ensures var flights := Run(Configure(p, r), draws, n).log.flights;
            (flights[a].service - flights[b].service) * 1000.0 == (flights[a].size - flights[b].size) as real * Max(0.0, p.servicePerItemMs)
  {
    hide Run, Configure, Max;
    ServiceInMilliseconds(p, r, draws, n);
    var flights := Run(Configure(p, r), draws, n).log.flights;
    Shares(flights[a].size, flights[b].size, Max(0.0, p.servicePerItemMs));
  }

  lemma Shares(k: nat, m: nat, share: real)
    ensures k as real * share - m as real * share == (k - m) as real * share
  {
  }

  /** The mechanisms by the parameters: demand over the memory limit, a lock held beyond the patience, a latency over the deadline, a pool that is too small; the first that applies. */
  lemma DeathsInMilliseconds(p: Params, r: Request, failure: Option<Mechanism>, lockWait: real, latency: real)
    requires Dies(Configure(p, r), failure, lockWait, latency)
    ensures var killed, impatient, late, starved := 0.0 < p.resourceLimitMb < p.resourceDemandMb, 0.0 < p.lockTimeoutMs < lockWait * 1000.0,
                                                    0.0 < p.requestTimeoutMs < latency * 1000.0, 0.0 < p.dbPoolSize < p.dbDemandConnections;
            && (failure == Some(ResourceExhaustion) <==> killed)
            && (failure == Some(LockContention) <==> !killed && impatient)
            && (failure == Some(DependencyTimeout) <==> !killed && !impatient && late)
            && (failure == Some(PoolExhaustion) <==> !killed && !impatient && !late && starved)
            && (failure == None <==> !killed && !impatient && !late && !starved)
  {
    hide Configure;
    CeilingsOf(p, r);
    var c := Configure(p, r);
    if failure.Some? {
      match failure.value
      case ResourceExhaustion =>
      case LockContention =>
      case DependencyTimeout =>
      case PoolExhaustion =>
    }
    assert 0.0 < c.lockPatience < lockWait <==> 0.0 < p.lockTimeoutMs < lockWait * 1000.0;
    assert 0.0 < c.timeout < latency <==> 0.0 < p.requestTimeoutMs < latency * 1000.0;
  }

  lemma CeilingsOf(p: Params, r: Request)
    ensures var c := Configure(p, r);
            && c.lockPatience * 1000.0 == Max(0.0, p.lockTimeoutMs) && c.timeout * 1000.0 == Max(0.0, p.requestTimeoutMs)
            && c.poolSize == Max(0.0, p.dbPoolSize) && c.poolDemand == Max(0.0, p.dbDemandConnections)
  {
  }
}
