/**
 `simulate_pipeline` in its own form: variables updated in place by the closures and the event
 loop. Every method refines the corresponding function of `Pipeline`; the loop as a whole
 computes a run of that model, for which the other modules prove their results.
 */
module Simulation {
  import opened Wrappers
  import opened Events
  import P = Pipeline
  import opened Pipeline
  import Arrivals
  import Termination
  import Effects

  class Simulator {
    const c: Config

    // the event heap
    var events: seq<Entry>
    var sequence: nat

    // the pipeline
    var pending: seq<Frame>
    var busyWorkers: int
    var epochItems: seq<Frame>
    var epochDeadline: Option<real>
    var epochId: nat
    var captureTimes: map<nat, real>
    var requestLatencyByFrame: map<nat, real>
    var deliveryAgeByFrame: map<nat, real>
    var buffer: seq<(real, nat)>
    var nextFrameId: nat

    // the counters and series of the report
    var stats: Stats

    // history
    ghost var clock: real
    ghost var log: Ledger

    ghost function View(): State
      reads this
    {
      State(clock, events, sequence, pending, busyWorkers, epochItems, epochDeadline, epochId,
            captureTimes, requestLatencyByFrame, deliveryAgeByFrame, buffer, nextFrameId, stats, log)
    }

    /** The state variables, the initial backlog and the first two events. */
    constructor (c: Config, firstGap: real)
      ensures this.c == c && View() == Start(c, firstGap)
    {
      this.c := c;
      events, sequence := [], 0;
      pending, busyWorkers, epochItems, epochDeadline, epochId := [], 0, [], None, 0;
      captureTimes, requestLatencyByFrame, deliveryAgeByFrame, buffer, nextFrameId := map[], map[], map[], [], 0;
      stats := Stats(0, 0, 0, 0, map[], 0, 0, 0, 0, 0, 0, 0.0, [], [], [], []);
      clock := 0.0;
      log := Ledger(0.0, 0, [], [], map[], map[], [], [], [], [], [], [], [], 0.0);
      new;
      for k := 0 to c.backlog
        invariant pending == Backlog(k) && nextFrameId == k
        invariant View() == Start(c, firstGap).(queue := [], stamp := 0, pending := pending, next := nextFrameId)
      {
        pending := pending + [Frame(0.0, nextFrameId)];
        nextFrameId := nextFrameId + 1;
      }
      Push(firstGap, Arrival);
      Push(0.0, Consume);
    }

    method Push(t: real, event: Event)
      modifies this
      ensures View() == P.Push(old(View()), t, event)
    {
      hide Insert;
      sequence := sequence + 1;
      events := Insert(events, Entry(t, sequence, event));
    }

    /** `start_epoch`. */
    method OpenEpoch(now: real)
      modifies this
      ensures View() == P.StartEpoch(c, old(View()), now)
    {
      hide Insert, Reopen;
      var due := if c.window > 0.0 then now + c.window else now;
      OverwriteEpoch(now, due);
      Push(due, EpochTimer(epochId)) by {
        assert epochId == old(epochId) + 1;
      }
    }

    method OverwriteEpoch(now: real, due: real)
      modifies this
      ensures View() == Reopen(old(View()), now, due) && epochId == old(epochId) + 1
    {
      hide Ids;
      log := log.(openedAt := now, timer := sequence + 1, vanished := log.vanished + Ids(epochItems));
      epochItems := [];
      epochId := epochId + 1;
      epochDeadline := Some(due);
    }

    /** The resource envelope, the lock, the deadline and the connection pool, in the order a request meets them. */
    method Judge(items: seq<Frame>, now: real, lockDraw: real) returns (failure: Option<Mechanism>, lockWait: real, service: real)
      requires items != []
      ensures lockWait == LockWait(c, lockDraw) && service == ServiceTime(c, |items|)
      ensures failure == Failure(c, now - items[0].capture + lockWait + service, lockWait)
    {
      service := c.base + c.perItem * |items| as real;
      if c.penalty > 0.0 {
        service := service + c.penalty * c.pressure;
      }
      lockWait := 0.0;
      if c.lockProb > 0.0 && lockDraw < c.lockProb {
        lockWait := c.lockHold;
      }
      var batchWait := now - items[0].capture;
      var requestLatency := batchWait + lockWait + service;

      failure := None;
      if c.pressure > 1.0 {
        failure := Some(ResourceExhaustion);
      } else if c.lockPatience > 0.0 && lockWait > c.lockPatience {
        failure := Some(LockContention);
      } else if c.timeout > 0.0 && requestLatency > c.timeout {
        failure := Some(DependencyTimeout);
      } else if c.poolSize > 0.0 && c.poolDemand > c.poolSize {
        failure := Some(PoolExhaustion);
      }
    }

    method FailBatch(items: seq<Frame>, now: real, m: Mechanism)
      modifies this
      ensures View() == P.Fail(old(View()), items, now, m)
    {
      hide Insert, Ids;
      stats := stats.(failed := stats.failed + 1, reasons := stats.reasons[m := Count(stats.reasons, m) + 1]);
      log := log.(failed := log.failed + Ids(items));
      Push(now, ServerFailed(items));
    }

    method ServeBatch(items: seq<Frame>, now: real, reason: Reason, lockWait: real, service: real)
      modifies this
      ensures View() == P.Serve(old(View()), items, now, reason, lockWait, service)
    {
      hide Insert, Record, Board;
      RecordLatencies(items, now, lockWait, service);
      stats := stats.(served := stats.served + |items|);
      if reason == BySize {
        stats := stats.(sizeLimited := stats.sizeLimited + 1);
      } else {
        stats := stats.(windowLimited := stats.windowLimited + 1);
      }
      log := log.(flights := Board(items, Flight(now, lockWait, service, |items|), log.flights));
      Push(now + service, ServerDone(items, service));
    }

    method CloseEpoch(now: real, reason: Reason, failure: Option<Mechanism>)
      modifies this
      ensures View() == P.Close(old(View()), now, reason, failure)
    {
      hide Ids;
      log := log.(batches := log.batches + [Batch(log.openedAt, now, |epochItems|, reason, failure)],
                  dispatched := log.dispatched + Ids(epochItems));
      stats := stats.(requests := stats.requests + 1);
      busyWorkers := busyWorkers + 1;
      epochItems := [];
      epochDeadline := None;
    }

    /** `dispatch`: closes the epoch and hands the batch to a worker, if one is free. */
    method Dispatch(now: real, reason: Reason, lockDraw: real)
      modifies this
      ensures View() == P.Dispatch(c, old(View()), now, reason, lockDraw)
    {
      hide Insert, Ids, Fail, Serve, Failure, ServiceTime, LockWait, Close;
      if epochItems == [] {
        epochDeadline := None;
        return;
      }
      if busyWorkers >= c.workers {
        return;  // retried when a worker frees up
      }
      var items := epochItems;
      var failure, lockWait, service := Judge(items, now, lockDraw);
      CloseEpoch(now, reason, failure);
      if failure.Some? {
        FailBatch(items, now, failure.value);
      } else {
        ServeBatch(items, now, reason, lockWait, service);
      }
    }

    method RecordLatencies(items: seq<Frame>, now: real, lockWait: real, service: real)
      modifies this`requestLatencyByFrame
      ensures requestLatencyByFrame == Record(items, now, lockWait, service, old(requestLatencyByFrame))
    {
      for k := 0 to |items|
        invariant requestLatencyByFrame == Record(items[..k], now, lockWait, service, old(requestLatencyByFrame))
      {
        var requestLatency := ((now - items[k].capture) + lockWait + service) * 1000.0;
        requestLatencyByFrame := requestLatencyByFrame[items[k].id := requestLatency];
        assert items[..k + 1][..k] == items[..k];
      }
      assert items[..|items|] == items;
    }

    method OnArrival(now: real, d: Draws)
      requires now == clock
      modifies this
      ensures View() == P.OnArrival(c, old(View()), d)
    {
      hide Insert, P.Place;
      var frame := Frame(now, nextFrameId);
      nextFrameId := nextFrameId + 1;
      captureTimes := captureTimes[frame.id := now];
      if now >= c.measureFrom {
        stats := stats.(produced := stats.produced + 1);
      }
      assert View() == Capture(c, old(View()));
      PlaceFrame(now, frame, d);
      Push(now + d.gap, Arrival);
    }

    /** The frame joins the backlog when every worker is occupied, and an epoch otherwise. */
    method PlaceFrame(now: real, frame: Frame, d: Draws)
      requires now == clock
      modifies this
      ensures View() == P.Place(c, old(View()), frame, d)
    {
      hide Insert, P.Dispatch, P.StartEpoch;
      Effects.StartEpochTouches(c, View(), now);
      if busyWorkers >= c.workers {
        pending := pending + [frame];
      } else {
        if epochItems == [] {
          OpenEpoch(now);
        }
        epochItems := epochItems + [frame];
        if |epochItems| >= c.maxBatch {
          Dispatch(now, BySize, d.lock);
        }
      }
    }

    method OnTimer(now: real, generation: nat, d: Draws)
      requires now == clock
      modifies this
      ensures View() == P.OnTimer(c, old(View()), generation, d)
    {
      if generation == epochId && epochDeadline.Some? {
        if epochItems != [] {
          Dispatch(now, ByWindow, d.lock);
        }
      }
    }

    /** The loop that moves up to a batch of the backlog into the new epoch, one frame at a time. */
    method TakeFromBacklog()
      requires epochItems == []
      modifies this
      ensures View() == Fill(c, old(View()))
    {
      var take := if c.maxBatch <= |pending| then c.maxBatch else |pending|;
      ghost var all := pending;
      for k := 0 to take
        invariant epochItems == all[..k] && pending == all[k..]
        invariant View() == old(View()).(epoch := epochItems, pending := pending)
      {
        epochItems := epochItems + [pending[0]];
        pending := pending[1..];
      }
    }

    method Refill(now: real, d: Draws)
      requires now == clock
      modifies this
      ensures View() == P.Refill(c, old(View()), d)
    {
      hide Insert, P.Dispatch, P.StartEpoch;
      if pending != [] {
        OpenEpoch(now);
        assert epochItems == [] && View().pending == old(View()).pending && clock == now by {
          Effects.StartEpochTouches(c, old(View()), now);
        }
        TakeFromBacklog();
        if |epochItems| >= c.maxBatch {
          Dispatch(now, BySize, d.lock);
        }
      } else if epochItems != [] && busyWorkers < c.workers {
        Dispatch(now, BySize, d.lock);
      }
    }
  
    method OnDone(now: real, items: seq<Frame>, service: real, d: Draws)
      requires now == clock
      modifies this
      ensures View() == P.OnDone(c, old(View()), items, service, d)
    {
      hide Insert, P.Refill, P.Depart;
      busyWorkers := MaxInt(0, busyWorkers - 1);
      if now >= c.measureFrom {
        stats := stats.(busyTime := stats.busyTime + service);
      }
      log := log.(work := log.work + service);
      assert View() == Credit(c, Release(old(View())), service);
      Effects.DepartTouches(c, View(), items, |items|, d.hops);
      SendBatch(now, items, d.hops);
      Refill(now, d);
    }

    method SendBatch(now: real, items: seq<Frame>, hops: nat -> Hop)
      requires now == clock
      modifies this
      ensures View() == Depart(c, old(View()), items, |items|, hops)
    {
      hide Insert, P.Launch, P.Lose, Delay;
      for k := 0 to |items|
        invariant View() == Depart(c, old(View()), items, k, hops)
      {
        Effects.DepartTouches(c, old(View()), items, k, hops);
        SendFrame(now, items[k].id, hops(k));
      }
    }

    /** The frame is lost on the link, or delivered after a transport delay. */
    method SendFrame(now: real, id: nat, hop: Hop)
      requires now == clock
      modifies this
      ensures View() == if hop.uniform < c.loss then Lose(old(View()), id) else Launch(old(View()), id, P.Delay(c, hop))
    {
      hide Insert;
      var delay := c.meanDelay;
      if c.sigma > 0.0 {
        delay := hop.gauss;
      }
      delay := Max(0.0, delay);
      if hop.uniform < c.loss {
        stats := stats.(dropped := stats.dropped + 1);
        log := log.(lost := log.lost + [id]);
        return;
      }
      log := log.(delays := log.delays[id := delay]);
      Push(now + delay, Deliver(id));
    }

    method OnFailed(now: real, d: Draws)
      requires now == clock
      modifies this
      ensures View() == P.OnFailed(c, old(View()), d)
    {
      hide Insert, P.Refill;
      busyWorkers := MaxInt(0, busyWorkers - 1);
      Refill(now, d);
    }

    method OnDeliver(now: real, id: nat)
      requires now == clock
      modifies this
      ensures View() == P.OnDeliver(c, old(View()), id)
    {
      hide P.Receive, P.Trim;
      Receive(now, id);
      Trim();
    }

    method Receive(now: real, id: nat)
      requires now == clock
      modifies this`buffer, this`deliveryAgeByFrame
      ensures View() == P.Receive(c, old(View()), id)
    {
      buffer := buffer + [(now, id)];
      if id in captureTimes {
        deliveryAgeByFrame := deliveryAgeByFrame[id := (now - captureTimes[id]) * 1000.0 + c.skew];
      }
    }

    method Trim()
      modifies this`buffer, this`stats, this`log
      ensures View() == P.Trim(c, old(View()))
    {
      if |buffer| > c.qosDepth {
        log := log.(evicted := log.evicted + [buffer[0].1]);
        buffer := buffer[1..];
        stats := stats.(dropped := stats.dropped + 1);
      }
    }

    method OnConsume(now: real)
      requires now == clock
      modifies this
      ensures View() == P.OnConsume(c, old(View()))
    {
      hide Insert, BufferedIds, Measure;
      if buffer != [] {
        var newest := buffer[|buffer| - 1];
        if now >= c.measureFrom {
          RecordSample(now, newest);
          log := log.(measured := log.measured + [newest.1]);
        }
        log := log.(consumed := log.consumed + [newest.1],
                    superseded := log.superseded + BufferedIds(buffer[..|buffer| - 1]));
        buffer := [];
      }
      assert View() == Sample(c, old(View()));
      Push(now + c.period, Consume);
    }

    /** The measured part of a consumption: one entry in each reported series. */
    method RecordSample(now: real, newest: (real, nat))
      requires now == clock
      modifies this`stats
      ensures stats == Measure(c, old(View()), newest)
    {
      hide Exceeds;
      var capture := if newest.1 in captureTimes then captureTimes[newest.1] else newest.0;
      var consumptionAge := (now - capture) * 1000.0 + c.skew;
      var effectiveAge := if c.byDelivery && newest.1 in deliveryAgeByFrame then deliveryAgeByFrame[newest.1] else consumptionAge;
      stats := stats.(consumed := stats.consumed + 1,
                      ages := stats.ages + [effectiveAge],
                      samplingDelays := stats.samplingDelays + [(now - newest.0) * 1000.0]);
      if newest.1 in deliveryAgeByFrame {
        stats := stats.(deliveryAges := stats.deliveryAges + [deliveryAgeByFrame[newest.1]]);
      }
      var latency := if newest.1 in requestLatencyByFrame then requestLatencyByFrame[newest.1] else 0.0;
      stats := stats.(latencies := stats.latencies + [latency]);
      CountLate(effectiveAge);
    }

    method CountLate(age: real)
      modifies this`stats
      ensures stats == old(stats).(stale := old(stats).stale + Exceeds(age, c.freshnessMs),
                                   misses := old(stats).misses + Exceeds(age, c.deadlineMs))
    {
      if c.freshnessMs.Some? && age > c.freshnessMs.value {
        stats := stats.(stale := stats.stale + 1);
      }
      if c.deadlineMs.Some? && age > c.deadlineMs.value {
        stats := stats.(misses := stats.misses + 1);
      }
    }

    /** One turn of the event loop. */
    method HandleEvent(d: Draws)
      requires Live(c, View())
      modifies this
      ensures View() == Step(c, old(View()), d)
    {
      hide Insert, P.OnArrival, P.OnTimer, P.OnDone, P.OnFailed, P.OnDeliver, P.OnConsume;
      var now, event := events[0].time, events[0].event;
      events := events[1..];
      clock := now;
      match event
      case Arrival => OnArrival(now, d);
      case EpochTimer(generation) => OnTimer(now, generation, d);
      case ServerDone(items, service) => OnDone(now, items, service, d);
      case ServerFailed(_) => OnFailed(now, d);
      case Deliver(id) => OnDeliver(now, id);
      case Consume => OnConsume(now);
    }

    /**
     The event loop, for arrivals that pass the end of the run (otherwise it does not stop): it
     leaves the state of a run of the model, and stops within the bound when the gaps have one.
     */
    method Simulate(draws: nat -> Draws) returns (n: nat)
      requires c.Ok() && View() == Start(c, draws(0).gap)
      requires exists k: nat :: Arrivals.PastEnd(c, draws, k)
      modifies this
      ensures View() == P.Run(c, draws, n) && !Live(c, View())
      ensures forall gap :: gap > 0.0 && (forall k :: draws(k).gap >= gap) ==> n <= Termination.Bound(c, gap, draws(0).gap) + 1
    {
      hide Start, Step, Termination.Potential, Termination.Bound, Arrivals.PastEnd;
      ghost var k: nat :| Arrivals.PastEnd(c, draws, k);
      Termination.PotentialIsNonNegative(c, 1.0, P.Run(c, draws, k));
      ghost var limit: nat := k + Termination.Potential(c, 1.0, P.Run(c, draws, k)) + 1;
      n := 0;
      while events != [] && events[0].time <= c.end
        invariant View() == P.Run(c, draws, n) && n <= limit
        invariant forall i: nat :: i < n ==> Live(c, P.Run(c, draws, i))
        decreases limit - n
      {
        if n == limit {
          Arrivals.StopsAfter(c, draws, k, n);
          assert false;
        }
        HandleEvent(draws(n + 1));
        n := n + 1;
      }
      forall gap | gap > 0.0 && forall k :: draws(k).gap >= gap
        ensures n <= Termination.Bound(c, gap, draws(0).gap) + 1
      {
        if n > Termination.Bound(c, gap, draws(0).gap) + 1 {
          Termination.Stops(c, gap, draws, n - 1);
        }
      }
    }
  }
}
