/** What the closures leave alone: each of them changes only the fields named here. */
module Effects {
  import opened Wrappers
  import opened Events
  import opened Pipeline

  lemma StartEpochTouches(c: Config, s: State, now: real)
    ensures var r := StartEpoch(c, s, now);
            && r == s.(queue := r.queue, stamp := s.stamp + 1, epoch := [], deadline := r.deadline, generation := s.generation + 1,
                       log := s.log.(openedAt := now, timer := s.stamp + 1, vanished := s.log.vanished + Ids(s.epoch)))
  {
    hide Insert;
  }

  lemma DispatchTouches(c: Config, s: State, now: real, reason: Reason, draw: real)
    ensures var r := Dispatch(c, s, now, reason, draw);
            && r == s.(queue := r.queue, stamp := r.stamp, busy := r.busy, epoch := r.epoch, deadline := r.deadline,
                       latency := r.latency,
                       stats := s.stats.(requests := r.stats.requests, served := r.stats.served,
                                         failed := r.stats.failed, reasons := r.stats.reasons,
                                         sizeLimited := r.stats.sizeLimited, windowLimited := r.stats.windowLimited),
                       log := s.log.(batches := r.log.batches, dispatched := r.log.dispatched,
                                     flights := r.log.flights, failed := r.log.failed))
            && (s.epoch == [] || s.busy < c.workers ==>
                  && r.epoch == []
                  && r.busy == s.busy + (if s.epoch == [] then 0 else 1)
                  && r.log.dispatched == s.log.dispatched + Ids(s.epoch))
  {
    hide Insert, Record, Board, Verdict, ServiceTime, LockWait, Fail, Serve, Close, Ids;
    assert Ids([]) == [] by { NoIds(); }
    if s.epoch != [] && s.busy < c.workers {
      var verdict := Verdict(c, s, now, draw);
      var closed := Close(s, now, reason, verdict);
      CloseTouches(s, now, reason, verdict);
      if verdict.Some? {
        FailTouches(closed, s.epoch, now, verdict.value);
      } else {
        ServeTouches(closed, s.epoch, now, reason, LockWait(c, draw), ServiceTime(c, |s.epoch|));
      }
    }
  }

  lemma NoIds()
    ensures Ids([]) == []
  {
  }

  lemma CloseTouches(s: State, now: real, reason: Reason, failure: Option<Mechanism>)
    ensures var r := Close(s, now, reason, failure);
            && r == s.(busy := s.busy + 1, epoch := [], deadline := None, stats := s.stats.(requests := r.stats.requests),
                       log := s.log.(batches := r.log.batches, dispatched := s.log.dispatched + Ids(s.epoch)))
  {
  }

  lemma FailTouches(s: State, items: seq<Frame>, now: real, m: Mechanism)
    ensures var r := Fail(s, items, now, m);
            && r == s.(queue := r.queue, stamp := r.stamp, stats := s.stats.(failed := r.stats.failed, reasons := r.stats.reasons),
                       log := s.log.(failed := r.log.failed))
  {
    hide Insert, Ids;
  }

  lemma ServeTouches(s: State, items: seq<Frame>, now: real, reason: Reason, lockWait: real, service: real)
    ensures var r := Serve(s, items, now, reason, lockWait, service);
            && r == s.(queue := r.queue, stamp := r.stamp, latency := r.latency,
                       stats := s.stats.(served := r.stats.served, sizeLimited := r.stats.sizeLimited, windowLimited := r.stats.windowLimited),
                       log := s.log.(flights := r.log.flights))
  {
    hide Insert, Record, Board;
  }

  lemma {:induction false} DepartTouches(c: Config, s: State, items: seq<Frame>, k: nat, hops: nat -> Hop)
    requires k <= |items|
    ensures var r := Depart(c, s, items, k, hops);
            && r == s.(queue := r.queue, stamp := r.stamp, stats := s.stats.(dropped := r.stats.dropped),
                       log := s.log.(lost := r.log.lost, delays := r.log.delays))
            && r.stats.dropped - |r.log.lost| == s.stats.dropped - |s.log.lost|
  {
    hide Insert, Delay;
    if k > 0 {
      DepartTouches(c, s, items, k - 1, hops);
    }
  }

  lemma DeliverTouches(c: Config, s: State, id: nat)
    ensures var r := OnDeliver(c, s, id);
            && r == s.(received := r.received, buffer := r.buffer, stats := s.stats.(dropped := r.stats.dropped),
                       log := s.log.(evicted := r.log.evicted))
            && r.stats.dropped - |r.log.evicted| == s.stats.dropped - |s.log.evicted|
  {
  }

  lemma SampleTouches(c: Config, s: State)
    ensures var r := Sample(c, s);
            && r == s.(buffer := [],
                       stats := s.stats.(consumed := r.stats.consumed, stale := r.stats.stale, misses := r.stats.misses,
                                         ages := r.stats.ages, deliveryAges := r.stats.deliveryAges,
                                         samplingDelays := r.stats.samplingDelays, latencies := r.stats.latencies),
                       log := s.log.(consumed := r.log.consumed, superseded := r.log.superseded, measured := r.log.measured))
  {
    hide EffectiveAge, Exceeds;
  }

  /** The subscriber's side of the state, and the counters that no dispatch touches. */
  ghost predicate Undisturbed(s: State, t: State) {
    && t.clock == s.clock && t.next == s.next && t.captures == s.captures && t.received == s.received && t.buffer == s.buffer
    && t.log.consumed == s.log.consumed && t.log.superseded == s.log.superseded && t.log.evicted == s.log.evicted
    && t.log.measured == s.log.measured && t.log.lost == s.log.lost && t.log.delays == s.log.delays && t.log.work == s.log.work
    && t.stats.produced == s.stats.produced && t.stats.consumed == s.stats.consumed && t.stats.busyTime == s.stats.busyTime
    && t.stats.deliveryAges == s.stats.deliveryAges
  }

  /** A placement or a refill is at most an epoch opened, frames moved, and a dispatch. */
  lemma PlaceTouches(c: Config, s: State, frame: Frame, d: Draws)
    ensures var r := Place(c, s, frame, d);
            Undisturbed(s, r) && r.log.vanished == s.log.vanished
  {
    hide StartEpoch, Dispatch;
    var open := if s.epoch == [] then StartEpoch(c, s, s.clock) else s;
    StartEpochTouches(c, s, s.clock);
    assert Ids([]) == [];
    DispatchTouches(c, open.(epoch := open.epoch + [frame]), s.clock, BySize, d.lock);
  }

  lemma RefillTouches(c: Config, s: State, d: Draws)
    ensures var r := Refill(c, s, d);
            Undisturbed(s, r) && r.log.vanished == s.log.vanished + (if s.pending != [] then Ids(s.epoch) else [])
  {
    hide StartEpoch, Dispatch;
    StartEpochTouches(c, s, s.clock);
    DispatchTouches(c, Fill(c, StartEpoch(c, s, s.clock)), s.clock, BySize, d.lock);
    DispatchTouches(c, s, s.clock, BySize, d.lock);
  }

  /** The clock is the time of the event being handled. */
  lemma StepClock(c: Config, s: State, d: Draws)
    requires Live(c, s)
    ensures Step(c, s, d).clock == s.queue[0].time
  {
    hide Insert, Place, Refill, Depart, Dispatch, Sample, OnDeliver;
    var p := Pop(s);
    match s.queue[0].event
    case Arrival => PlaceTouches(c, Capture(c, p), Frame(p.clock, p.next), d);
    case EpochTimer(_) => DispatchTouches(c, p, p.clock, ByWindow, d.lock);
    case ServerDone(items, service) =>
      DepartTouches(c, Credit(c, Release(p), service), items, |items|, d.hops);
      RefillTouches(c, Depart(c, Credit(c, Release(p), service), items, |items|, d.hops), d);
    case ServerFailed(_) => RefillTouches(c, Release(p), d);
    case Deliver(id) => DeliverTouches(c, p, id);
    case Consume => SampleTouches(c, p);
  }
}
