/**
 The discrete-event perception-pipeline simulator: configuration, state, and the
 effect of every event on the state. Random draws are inputs. `Ledger` is history
 that the simulator itself does not keep; it lets whole-run properties be stated.
 */
module Pipeline {
  import opened Wrappers
  import opened Events

  datatype Reason = BySize | ByWindow

  datatype Mechanism = ResourceExhaustion | LockContention | DependencyTimeout | PoolExhaustion

  /** The physical parameters, in the units the source uses (milliseconds, hertz, megabytes). */
  datatype Params = Params(
    initialBacklog: real,
    batchingWindowMs: real, maxBatchSize: real, serverWorkers: real,
    serviceBaseMs: real, servicePerItemMs: real,
    transportMeanMs: real, transportSigmaMs: real, transportLossProb: real,
    qosQueueDepth: real, consumerRateHz: real, clockSkewMs: real,
    resourceLimitMb: real, resourceDemandMb: real, pressurePenaltyMs: real,
    requestTimeoutMs: real,
    lockContentionProb: real, lockHoldMs: real, lockTimeoutMs: real,
    dbPoolSize: real, dbDemandConnections: real)

  /** What one call of the simulator is asked to measure. */
  datatype Request = Request(
    duration: real, warmup: real,
    freshnessMs: Option<real>, deadlineMs: Option<real>, byDelivery: bool)

  /** The clamped parameters, in seconds. */
  datatype Config = Config(
    backlog: nat, window: real, maxBatch: nat, workers: nat,
    base: real, perItem: real, meanDelay: real, sigma: real, loss: real,
    qosDepth: nat, period: real, skew: real,
    pressure: real, penalty: real, timeout: real,
    lockProb: real, lockHold: real, lockPatience: real,
    poolSize: real, poolDemand: real,
    measureFrom: real, end: real,
    freshnessMs: Option<real>, deadlineMs: Option<real>, byDelivery: bool)
  {
    predicate Ok() {
      && window >= 0.0 && maxBatch >= 1 && workers >= 1
      && base >= 0.0 && perItem >= 0.0 && meanDelay >= 0.0 && sigma >= 0.0
      && qosDepth >= 1 && period > 0.0
      && pressure >= 0.0 && penalty >= 0.0 && timeout >= 0.0
      && lockHold >= 0.0 && lockPatience >= 0.0 && poolSize >= 0.0 && poolDemand >= 0.0
    }
  }

  function Max(a: real, b: real): real { if a >= b then a else b }

  function Min(a: real, b: real): real { if a <= b then a else b }

  function MaxInt(a: int, b: int): int { if a >= b then a else b }

  /** Python's `round`: to the nearest integer, and to the even one of two that are equally near. */
  function Round(x: real): int {
    var below, over := x.Floor, x - x.Floor as real;
    if over < 0.5 || (over == 0.5 && below % 2 == 0) then below else below + 1
  }

  /** Python's `int` of a float: towards zero. */
  function Truncate(x: real): int {
    if x >= 0.0 then x.Floor else -((-x).Floor)
  }

  function Clamp(x: real, low: real, high: real): real { Max(low, Min(high, x)) }

  /** Every parameter set, however odd, yields a configuration the event loop can run. */
  function Configure(p: Params, r: Request): (c: Config)
    ensures c.Ok()
    ensures p.resourceLimitMb > 0.0 && p.resourceDemandMb > p.resourceLimitMb <==> c.pressure > 1.0
  {
    var limit := Max(0.0, p.resourceLimitMb);
    var demand := Max(0.0, p.resourceDemandMb);
    var pressure := if limit > 0.0 then demand / limit else 0.0;
    assert limit > 0.0 ==> (demand > limit <==> pressure > 1.0) by {
      if limit > 0.0 {
        assert pressure * limit == demand;
        if pressure > 1.0 { assert (pressure - 1.0) * limit > 0.0; }
        if pressure <= 1.0 { assert (1.0 - pressure) * limit >= 0.0; }
      }
    }
    Config(
      MaxInt(0, Round(p.initialBacklog)),
      Max(0.0, p.batchingWindowMs / 1000.0), MaxInt(1, Truncate(p.maxBatchSize)), MaxInt(1, Truncate(p.serverWorkers)),
      Max(0.0, p.serviceBaseMs / 1000.0), Max(0.0, p.servicePerItemMs / 1000.0),
      Max(0.0, p.transportMeanMs / 1000.0), Max(0.0, p.transportSigmaMs / 1000.0),
      Clamp(p.transportLossProb, 0.0, 1.0),
      MaxInt(1, Truncate(p.qosQueueDepth)), 1.0 / Max(0.001, p.consumerRateHz), p.clockSkewMs / 1000.0,
      pressure, Max(0.0, p.pressurePenaltyMs) / 1000.0, Max(0.0, p.requestTimeoutMs) / 1000.0,
      Clamp(p.lockContentionProb, 0.0, 1.0),
      Max(0.0, p.lockHoldMs) / 1000.0, Max(0.0, p.lockTimeoutMs) / 1000.0,
      Max(0.0, p.dbPoolSize), Max(0.0, p.dbDemandConnections),
      r.warmup, r.warmup + r.duration,
      r.freshnessMs, r.deadlineMs, r.byDelivery)
  }

  /** The statistics the simulator reports (those the properties speak of). */
  datatype Stats = Stats(
    produced: nat, served: nat, requests: nat,
    failed: nat, reasons: map<Mechanism, nat>,
    sizeLimited: nat, windowLimited: nat,
    dropped: nat, consumed: nat, stale: nat, misses: nat, busyTime: real,
    ages: seq<real>, deliveryAges: seq<real>, samplingDelays: seq<real>, latencies: seq<real>)

  /** How a batch left its epoch. */
  datatype Batch = Batch(openedAt: real, closedAt: real, size: nat, reason: Reason, failure: Option<Mechanism>)

  /** How a frame was served. */
  datatype Flight = Flight(closedAt: real, lockWait: real, service: real, size: nat)

  datatype Ledger = Ledger(
    openedAt: real,                  // when the current epoch was opened
    timer: nat,                    // the stamp of its window timer
    batches: seq<Batch>,           // every batch handed to a worker
    dispatched: seq<nat>,          // every frame in those batches
    flights: map<nat, Flight>,     // every frame in a batch that did not fail
    delays: map<nat, real>,        // the transport delay of every frame that was not lost
    lost: seq<nat>, evicted: seq<nat>, superseded: seq<nat>,
    consumed: seq<nat>, failed: seq<nat>, vanished: seq<nat>,
    measured: seq<nat>,            // the frames consumed inside the measurement window
    work: real)                    // service time of every completed batch

  datatype State = State(
    clock: real,
    queue: seq<Entry>, stamp: nat,
    pending: seq<Frame>, busy: int, epoch: seq<Frame>, deadline: Option<real>, generation: nat,
    captures: map<nat, real>, latency: map<nat, real>, received: map<nat, real>,
    buffer: seq<(real, nat)>, next: nat,
    stats: Stats, log: Ledger)

  /** The uniform and normal deviates drawn for one frame on the link. */
  datatype Hop = Hop(gauss: real, uniform: real)

  /** The draws one event may use: the gap to the next arrival, the lock, one hop per frame. */
  datatype Draws = Draws(gap: real, lock: real, hops: nat -> Hop)

  /** `rng.expovariate` never returns a negative gap. */
  ghost predicate Proper(draws: nat -> Draws) {
    forall n :: draws(n).gap >= 0.0
  }

  function Ids(frames: seq<Frame>): seq<nat> {
    seq(|frames|, i requires 0 <= i < |frames| => frames[i].id)
  }

  function BufferedIds(buffer: seq<(real, nat)>): seq<nat> {
    seq(|buffer|, i requires 0 <= i < |buffer| => buffer[i].1)
  }

  // --- the closures -----------------------------------------------------

  function Push(s: State, t: real, event: Event): State {
    s.(stamp := s.stamp + 1, queue := Insert(s.queue, Entry(t, s.stamp + 1, event)))
  }

  /** The epoch variables are overwritten, whatever the previous epoch still holds. */
  function Reopen(s: State, now: real, due: real): State {
    s.(epoch := [], generation := s.generation + 1, deadline := Some(due),
       log := s.log.(openedAt := now, timer := s.stamp + 1, vanished := s.log.vanished + Ids(s.epoch)))
  }

  /** Opens an epoch at `now` and arms its window timer. */
  function StartEpoch(c: Config, s: State, now: real): State {
    var due := if c.window > 0.0 then now + c.window else now;
    Push(Reopen(s, now, due), due, EpochTimer(s.generation + 1))
  }

  function ServiceTime(c: Config, n: nat): real {
    var plain := c.base + c.perItem * n as real;
    if c.penalty > 0.0 then plain + c.penalty * c.pressure else plain
  }

  function LockWait(c: Config, draw: real): real {
    if c.lockProb > 0.0 && draw < c.lockProb then c.lockHold else 0.0
  }

  /** The mechanism a request dies of, in the order a request meets them. */
  function Failure(c: Config, requestLatency: real, lockWait: real): Option<Mechanism> {
    if c.pressure > 1.0 then Some(ResourceExhaustion)
    else if c.lockPatience > 0.0 && lockWait > c.lockPatience then Some(LockContention)
    else if c.timeout > 0.0 && requestLatency > c.timeout then Some(DependencyTimeout)
    else if c.poolSize > 0.0 && c.poolDemand > c.poolSize then Some(PoolExhaustion)
    else None
  }

  function Count(reasons: map<Mechanism, nat>, m: Mechanism): nat {
    if m in reasons then reasons[m] else 0
  }

  function LatencyMs(now: real, capture: real, lockWait: real, service: real): real {
    (now - capture + lockWait + service) * 1000.0
  }

  /** The loop that records the request latency of every frame of a batch. */
  function Record(items: seq<Frame>, now: real, lockWait: real, service: real, m: map<nat, real>): (r: map<nat, real>) {
    if items == [] then m
    else
      var last := items[|items| - 1];
      Record(items[..|items| - 1], now, lockWait, service, m)[last.id := LatencyMs(now, last.capture, lockWait, service)]
  }

  /** The same frames in the ledger. */
  function Board(items: seq<Frame>, flight: Flight, m: map<nat, Flight>): map<nat, Flight> {
    m + map id | id in Ids(items) :: flight
  }

  /** What the request made of the open epoch dies of, if anything. */
  function Verdict(c: Config, s: State, now: real, lockDraw: real): Option<Mechanism>
    requires s.epoch != []
  {
    var wait := now - s.epoch[0].capture;
    Failure(c, wait + LockWait(c, lockDraw) + ServiceTime(c, |s.epoch|), LockWait(c, lockDraw))
  }

  /** The epoch is closed and a worker is taken, whether the request will live or not. */
  function Close(s: State, now: real, reason: Reason, failure: Option<Mechanism>): State {
    s.(busy := s.busy + 1, epoch := [], deadline := None, stats := s.stats.(requests := s.stats.requests + 1),
       log := s.log.(batches := s.log.batches + [Batch(s.log.openedAt, now, |s.epoch|, reason, failure)],
                     dispatched := s.log.dispatched + Ids(s.epoch)))
  }

  function MarkFailed(s: State, items: seq<Frame>, m: Mechanism): State {
    s.(stats := s.stats.(failed := s.stats.failed + 1, reasons := s.stats.reasons[m := Count(s.stats.reasons, m) + 1]),
       log := s.log.(failed := s.log.failed + Ids(items)))
  }

  /** The request dies inside the server: its worker reports back at once. */
  function Fail(s: State, items: seq<Frame>, now: real, m: Mechanism): State {
    Push(MarkFailed(s, items, m), now, ServerFailed(items))
  }

  function MarkServed(s: State, items: seq<Frame>, now: real, reason: Reason, lockWait: real, service: real): State {
    s.(latency := Record(items, now, lockWait, service, s.latency),
       stats := s.stats.(served := s.stats.served + |items|,
                         sizeLimited := s.stats.sizeLimited + (if reason == BySize then 1 else 0),
                         windowLimited := s.stats.windowLimited + (if reason == BySize then 0 else 1)),
       log := s.log.(flights := Board(items, Flight(now, lockWait, service, |items|), s.log.flights)))
  }

  function Serve(s: State, items: seq<Frame>, now: real, reason: Reason, lockWait: real, service: real): State {
    Push(MarkServed(s, items, now, reason, lockWait, service), now + service, ServerDone(items, service))
  }

  function Dispatch(c: Config, s: State, now: real, reason: Reason, lockDraw: real): State {
    if s.epoch == [] then s.(deadline := None)
    else if s.busy >= c.workers then s
    else
      var verdict := Verdict(c, s, now, lockDraw);
      var closed := Close(s, now, reason, verdict);
      match verdict
      case Some(m) => Fail(closed, s.epoch, now, m)
      case None => Serve(closed, s.epoch, now, reason, LockWait(c, lockDraw), ServiceTime(c, |s.epoch|))
  }

  // --- the event handlers -----------------------------------------------

  /** A new frame, known but not yet anywhere. */
  function Capture(c: Config, s: State): State {
    s.(next := s.next + 1, captures := s.captures[s.next := s.clock],
       stats := s.stats.(produced := s.stats.produced + (if s.clock >= c.measureFrom then 1 else 0)))
  }

  /** The frame joins the backlog when every worker is occupied, and an epoch otherwise. */
  function Place(c: Config, s: State, frame: Frame, d: Draws): State {
    if s.busy >= c.workers then s.(pending := s.pending + [frame])
    else
      var open := if s.epoch == [] then StartEpoch(c, s, s.clock) else s;
      var joined := open.(epoch := open.epoch + [frame]);
      if |joined.epoch| >= c.maxBatch then Dispatch(c, joined, s.clock, BySize, d.lock) else joined
  }

  function OnArrival(c: Config, s: State, d: Draws): State {
    Push(Place(c, Capture(c, s), Frame(s.clock, s.next), d), s.clock + d.gap, Arrival)
  }

  function OnTimer(c: Config, s: State, generation: nat, d: Draws): State {
    if generation == s.generation && s.deadline.Some? && s.epoch != []
    then Dispatch(c, s, s.clock, ByWindow, d.lock)
    else s
  }

  function Delay(c: Config, hop: Hop): real {
    Max(0.0, if c.sigma > 0.0 then hop.gauss else c.meanDelay)
  }

  function Lose(s: State, id: nat): State {
    s.(stats := s.stats.(dropped := s.stats.dropped + 1), log := s.log.(lost := s.log.lost + [id]))
  }

  function Launch(s: State, id: nat, delay: real): State {
    Push(s.(log := s.log.(delays := s.log.delays[id := delay])), s.clock + delay, Deliver(id))
  }

  /** The loop that puts the first `k` frames of a completed batch on the link. */
  function Depart(c: Config, s: State, items: seq<Frame>, k: nat, hops: nat -> Hop): State
    requires k <= |items|
  {
    if k == 0 then s
    else
      var t := Depart(c, s, items, k - 1, hops);
      if hops(k - 1).uniform < c.loss then Lose(t, items[k - 1].id)
      else Launch(t, items[k - 1].id, Delay(c, hops(k - 1)))
  }

  function Release(s: State): State {
    s.(busy := MaxInt(0, s.busy - 1))
  }

  /** The whole backlog, or as much of it as a batch holds, becomes the epoch. */
  function Fill(c: Config, s: State): State {
    var take := if c.maxBatch <= |s.pending| then c.maxBatch else |s.pending|;
    s.(epoch := s.pending[..take], pending := s.pending[take..])
  }

  /** Refills the freed worker from the backlog, or from the open epoch. */
  function Refill(c: Config, s: State, d: Draws): State {
    if s.pending != [] then
      var filled := Fill(c, StartEpoch(c, s, s.clock));
      if |filled.epoch| >= c.maxBatch then Dispatch(c, filled, s.clock, BySize, d.lock) else filled
    else if s.epoch != [] && s.busy < c.workers then Dispatch(c, s, s.clock, BySize, d.lock)
    else s
  }

  function Credit(c: Config, s: State, service: real): State {
    s.(stats := s.stats.(busyTime := s.stats.busyTime + (if s.clock >= c.measureFrom then service else 0.0)),
       log := s.log.(work := s.log.work + service))
  }

  function OnDone(c: Config, s: State, items: seq<Frame>, service: real, d: Draws): State {
    Refill(c, Depart(c, Credit(c, Release(s), service), items, |items|, d.hops), d)
  }

  function OnFailed(c: Config, s: State, d: Draws): State {
    Refill(c, Release(s), d)
  }

  /** Receipt: the skew, in seconds, is added to an age in milliseconds, as in the source. */
  function Receive(c: Config, s: State, id: nat): State {
    s.(buffer := s.buffer + [(s.clock, id)],
       received := if id in s.captures then s.received[id := (s.clock - s.captures[id]) * 1000.0 + c.skew] else s.received)
  }

  /** KEEP_LAST: the oldest sample makes room. */
  function Trim(c: Config, s: State): State {
    if |s.buffer| > c.qosDepth
    then s.(buffer := s.buffer[1..], stats := s.stats.(dropped := s.stats.dropped + 1),
            log := s.log.(evicted := s.log.evicted + [s.buffer[0].1]))
    else s
  }

  function OnDeliver(c: Config, s: State, id: nat): State {
    Trim(c, Receive(c, s, id))
  }

  function ConsumptionAge(c: Config, s: State, newest: (real, nat)): real {
    (s.clock - (if newest.1 in s.captures then s.captures[newest.1] else newest.0)) * 1000.0 + c.skew
  }

  function EffectiveAge(c: Config, s: State, newest: (real, nat)): real {
    if c.byDelivery && newest.1 in s.received then s.received[newest.1] else ConsumptionAge(c, s, newest)
  }

  function Exceeds(age: real, budget: Option<real>): nat {
    if budget.Some? && age > budget.value then 1 else 0
  }

  function Measure(c: Config, s: State, newest: (real, nat)): Stats {
    var age := EffectiveAge(c, s, newest);
    s.stats.(consumed := s.stats.consumed + 1,
             ages := s.stats.ages + [age],
             samplingDelays := s.stats.samplingDelays + [(s.clock - newest.0) * 1000.0],
             deliveryAges := s.stats.deliveryAges + (if newest.1 in s.received then [s.received[newest.1]] else []),
             latencies := s.stats.latencies + [if newest.1 in s.latency then s.latency[newest.1] else 0.0],
             stale := s.stats.stale + Exceeds(age, c.freshnessMs),
             misses := s.stats.misses + Exceeds(age, c.deadlineMs))
  }

  function Sample(c: Config, s: State): State {
    if s.buffer == [] then s
    else
      var n := |s.buffer| - 1;
      var newest := s.buffer[n];
      var inside := s.clock >= c.measureFrom;
      s.(buffer := [],
         stats := if inside then Measure(c, s, newest) else s.stats,
         log := s.log.(consumed := s.log.consumed + [newest.1],
                       superseded := s.log.superseded + BufferedIds(s.buffer[..n]),
                       measured := s.log.measured + (if inside then [newest.1] else [])))
  }

  function OnConsume(c: Config, s: State): State {
    Push(Sample(c, s), s.clock + c.period, Consume)
  }

  // --- runs -------------------------------------------------------------

  /** The loop guard: there is an event, and it is not past the end of the run. */
  predicate Live(c: Config, s: State) {
    s.queue != [] && s.queue[0].time <= c.end
  }

  /** `heappop` and the clock. */
  function Pop(s: State): State
    requires s.queue != []
  {
    s.(clock := s.queue[0].time, queue := s.queue[1..])
  }

  function Handle(c: Config, s: State, event: Event, d: Draws): State {
    match event
    case Arrival => OnArrival(c, s, d)
    case EpochTimer(generation) => OnTimer(c, s, generation, d)
    case ServerDone(items, service) => OnDone(c, s, items, service, d)
    case ServerFailed(_) => OnFailed(c, s, d)
    case Deliver(id) => OnDeliver(c, s, id)
    case Consume => OnConsume(c, s)
  }

  function Step(c: Config, s: State, d: Draws): State
    requires Live(c, s)
  {
    Handle(c, Pop(s), s.queue[0].event, d)
  }

  function Backlog(n: nat): seq<Frame> {
    seq(n, i requires 0 <= i < n => Frame(0.0, i))
  }

  function Start(c: Config, firstGap: real): State {
    var empty := State(
      0.0, [], 0, Backlog(c.backlog), 0, [], None, 0, map[], map[], map[], [], c.backlog,
      Stats(0, 0, 0, 0, map[], 0, 0, 0, 0, 0, 0, 0.0, [], [], [], []),
      Ledger(0.0, 0, [], [], map[], map[], [], [], [], [], [], [], [], 0.0));
    Push(Push(empty, firstGap, Arrival), 0.0, Consume)
  }

  /** The state after `n` events; `draws(0)` supplies the first gap, `draws(k)` the `k`-th event. */
  function Run(c: Config, draws: nat -> Draws, n: nat): State {
    if n == 0 then Start(c, draws(0).gap)
    else
      var s := Run(c, draws, n - 1);
      if Live(c, s) then Step(c, s, draws(n)) else s
  }
}
