/**
 The figures of the report, over whole runs: stale samples and missed deadlines are exactly the
 reported ages over their budgets, and the frames served are those of the batches that survived.
 */
module Report {
  import opened Wrappers
  import opened Events
  import opened Pipeline
  import opened Effects
  import opened Failures

  /** How many of the reported ages exceed a budget. */
  function Over(ages: seq<real>, budget: Option<real>): nat {
    if ages == [] then 0
    else
      var n := |ages| - 1;
      Over(ages[..n], budget) + (if budget.Some? && ages[n] > budget.value then 1 else 0)
  }

  /** The frames of the batches that were served. */
  function FramesOf(batches: seq<Batch>): nat {
    if batches == [] then 0
    else
      var n := |batches| - 1;
      FramesOf(batches[..n]) + (if batches[n].failure.None? then batches[n].size else 0)
  }

  ghost predicate Judged(c: Config, stats: Stats) {
    && stats.stale == Over(stats.ages, c.freshnessMs)
    && stats.misses == Over(stats.ages, c.deadlineMs)
    && stats.consumed == |stats.ages|
  }

  ghost predicate Reported(c: Config, s: State) {
    Judged(c, s.stats) && s.stats.served == FramesOf(s.log.batches)
  }

  lemma SampleReports(c: Config, s: State)
    requires Reported(c, s)
    ensures Reported(c, Sample(c, s))
  {
    hide EffectiveAge, FramesOf;
    if s.buffer != [] && s.clock >= c.measureFrom {
      var newest := s.buffer[|s.buffer| - 1];
      var age := EffectiveAge(c, s, newest);
      assert (s.stats.ages + [age])[..|s.stats.ages|] == s.stats.ages;
    }
  }

  lemma FramesAppend(batches: seq<Batch>, b: Batch)
    ensures FramesOf(batches + [b]) == FramesOf(batches) + if b.failure.None? then b.size else 0
  {
    assert (batches + [b])[..|batches|] == batches;
  }

  lemma DispatchReports(c: Config, s: State, now: real, reason: Reason, draw: real)
    requires Reported(c, s)
    ensures Reported(c, Dispatch(c, s, now, reason, draw))
  {
    hide Insert, Record, Board, Verdict, ServiceTime, LockWait, Over, FramesOf, Ids;
    DispatchTouches(c, s, now, reason, draw);
    if s.epoch != [] && s.busy < c.workers {
      FramesAppend(s.log.batches, Batch(s.log.openedAt, now, |s.epoch|, reason, Verdict(c, s, now, draw)));
    }
  }

  lemma PlaceReports(c: Config, s: State, frame: Frame, d: Draws)
    requires Reported(c, s)
    ensures Reported(c, Place(c, s, frame, d))
  {
    hide Dispatch, StartEpoch, Over, FramesOf;
    var open := if s.epoch == [] then StartEpoch(c, s, s.clock) else s;
    StartEpochTouches(c, s, s.clock);
    DispatchReports(c, open.(epoch := open.epoch + [frame]), s.clock, BySize, d.lock);
  }

  lemma RefillReports(c: Config, s: State, d: Draws)
    requires Reported(c, s)
    ensures Reported(c, Refill(c, s, d))
  {
    hide Dispatch, StartEpoch, Over, FramesOf;
    StartEpochTouches(c, s, s.clock);
    DispatchReports(c, Fill(c, StartEpoch(c, s, s.clock)), s.clock, BySize, d.lock);
    DispatchReports(c, s, s.clock, BySize, d.lock);
  }

  lemma StepReports(c: Config, s: State, d: Draws)
    requires Reported(c, s) && Live(c, s)
    ensures Reported(c, Step(c, s, d))
  {
    hide Insert, Place, Refill, Depart, Dispatch, Sample, OnDeliver, Over, FramesOf;
    var p := Pop(s);
    match s.queue[0].event
    case Arrival => PlaceReports(c, Capture(c, p), Frame(p.clock, p.next), d);
    case EpochTimer(_) => DispatchReports(c, p, p.clock, ByWindow, d.lock);
    case ServerDone(items, service) =>
      DepartTouches(c, Credit(c, Release(p), service), items, |items|, d.hops);
      RefillReports(c, Depart(c, Credit(c, Release(p), service), items, |items|, d.hops), d);
    case ServerFailed(_) => RefillReports(c, Release(p), d);
    case Deliver(id) => DeliverTouches(c, p, id);
    case Consume => SampleReports(c, p);
  }

  lemma StartReports(c: Config, gap: real)
    ensures Reported(c, Start(c, gap))
  {
    hide Insert;
  }

  /** The counters of the report agree with its series and with the batches, after every event of every run. */
  lemma {:induction false} RunIsReported(c: Config, draws: nat -> Draws, n: nat)
    ensures Reported(c, Run(c, draws, n))
  {
    hide Step, Start, Reported;
    if n == 0 {
      StartReports(c, draws(0).gap);
    } else {
      RunIsReported(c, draws, n - 1);
      if Live(c, Run(c, draws, n - 1)) {
        StepReports(c, Run(c, draws, n - 1), draws(n));
      }
    }
  }

  lemma {:induction false} OverAtMost(ages: seq<real>, budget: Option<real>)
    ensures Over(ages, budget) <= |ages|
    ensures Over(ages, budget) == 0 <==> budget.None? || forall i :: 0 <= i < |ages| ==> ages[i] <= budget.value
  {
    if ages != [] {
      var n := |ages| - 1;
      OverAtMost(ages[..n], budget);
      assert forall i :: 0 <= i < n ==> ages[..n][i] == ages[i];
    }
  }

  /** The stale, miss and failure rates are fractions, and a rate is zero exactly when no age is over its budget. */
  lemma RatesAreFractions(c: Config, draws: nat -> Draws, n: nat)
    ensures var s := Run(c, draws, n).stats;
            && s.stale <= s.consumed && s.misses <= s.consumed && s.failed <= s.requests
            && (s.stale == 0 <==> c.freshnessMs.None? || forall i :: 0 <= i < |s.ages| ==> s.ages[i] <= c.freshnessMs.value)
            && (s.misses == 0 <==> c.deadlineMs.None? || forall i :: 0 <= i < |s.ages| ==> s.ages[i] <= c.deadlineMs.value)
  {
    hide Run, Over;
    RunIsReported(c, draws, n);
    RunIsAccounted(c, draws, n);
    OverAtMost(Run(c, draws, n).stats.ages, c.freshnessMs);
    OverAtMost(Run(c, draws, n).stats.ages, c.deadlineMs);
  }

  /**
   Parameters within their ranges are taken as they are, in seconds; sizes and counts are cut to
   whole numbers, the backlog is rounded to the nearest number, the even one of two, and the
   pressure is demand over limit, or zero without a limit.
   */
  lemma ParametersInSeconds(p: Params, r: Request)
    requires p.initialBacklog >= 0.0 && p.batchingWindowMs >= 0.0 && p.maxBatchSize >= 1.0 && p.serverWorkers >= 1.0
    requires p.serviceBaseMs >= 0.0 && p.servicePerItemMs >= 0.0 && p.transportMeanMs >= 0.0 && p.transportSigmaMs >= 0.0
    requires 0.0 <= p.transportLossProb <= 1.0 && p.qosQueueDepth >= 1.0 && p.consumerRateHz >= 0.001
    requires p.resourceLimitMb >= 0.0 && p.resourceDemandMb >= 0.0 && p.pressurePenaltyMs >= 0.0 && p.requestTimeoutMs >= 0.0
    requires 0.0 <= p.lockContentionProb <= 1.0 && p.lockHoldMs >= 0.0 && p.lockTimeoutMs >= 0.0
    requires p.dbPoolSize >= 0.0 && p.dbDemandConnections >= 0.0
    ensures var c := Configure(p, r);
            && c.maxBatch as real <= p.maxBatchSize < c.maxBatch as real + 1.0
            && c.workers as real <= p.serverWorkers < c.workers as real + 1.0
            && c.qosDepth as real <= p.qosQueueDepth < c.qosDepth as real + 1.0
            && -0.5 <= c.backlog as real - p.initialBacklog <= 0.5
            && (c.backlog % 2 == 1 ==> -0.5 < c.backlog as real - p.initialBacklog < 0.5)
            && c.window * 1000.0 == p.batchingWindowMs && c.base * 1000.0 == p.serviceBaseMs && c.perItem * 1000.0 == p.servicePerItemMs
            && c.meanDelay * 1000.0 == p.transportMeanMs && c.sigma * 1000.0 == p.transportSigmaMs && c.skew * 1000.0 == p.clockSkewMs
            && c.loss == p.transportLossProb && c.period * p.consumerRateHz == 1.0
            && (if p.resourceLimitMb > 0.0 then c.pressure * p.resourceLimitMb == p.resourceDemandMb else c.pressure == 0.0)
            && c.penalty * 1000.0 == p.pressurePenaltyMs && c.timeout * 1000.0 == p.requestTimeoutMs
            && c.lockProb == p.lockContentionProb && c.lockHold * 1000.0 == p.lockHoldMs && c.lockPatience * 1000.0 == p.lockTimeoutMs
            && c.poolSize == p.dbPoolSize && c.poolDemand == p.dbDemandConnections
            && c.measureFrom == r.warmup && c.end - c.measureFrom == r.duration
  {
    if p.resourceLimitMb > 0.0 {
      Quotient(p.resourceDemandMb, p.resourceLimitMb);
    }
    Quotient(1.0, p.consumerRateHz);
    RoundIsNear(p.initialBacklog);
  }

  lemma RoundIsNear(x: real)
    ensures -0.5 <= Round(x) as real - x <= 0.5 && (x >= 0.0 ==> Round(x) >= 0)
    ensures Round(x) % 2 == 1 ==> -0.5 < Round(x) as real - x < 0.5
  {
  }

  lemma Quotient(a: real, b: real)
    requires b != 0.0
    ensures a / b * b == a
  {
  }
}
