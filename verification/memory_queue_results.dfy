/**
 What a client of the in-memory queue may rely on after any run: where every accepted job is and
 in what state, what the statistics mean, how often a job is handed out, and that finitely many
 submissions lead to finitely many steps.
 */
module QueueResults {
  import opened Wrappers
  import opened Dictionaries
  import opened Jobs
  import opened MemoryQueue
  import opened QueuePlaces
  import opened QueueCounts
  import opened QueueRuns

  datatype Container = Lane(tenant: string, level: Priority) | Running | Finished | DeadLetters(tenant: string)

  function JobsIn(s: Store, at: Container): set<string> {
    match at
    case Lane(tenant, level) => Ids(LanesAt(s.queues, tenant).Get(level))
    case Running => s.processing.Keys
    case Finished => s.completed.Keys
    case DeadLetters(tenant) => Ids(DeadAt(s.dead, tenant))
  }

  function PlaceOf(at: Container): Place {
    match at
    case Lane(tenant, level) => InLane(tenant, level)
    case Running => InProcessing
    case Finished => InCompleted
    case DeadLetters(tenant) => InDead(tenant)
  }

  lemma ContainerHolds(s: Store, at: Container, id: string)
    requires Placed(s)
    ensures id in JobsIn(s, at) <==> id in s.log.place && s.log.place[id] == PlaceOf(at)
  {
    hide QueuedJob, RunningJob, FinishedJob, DeadJob;
    match at
    case Lane(tenant, level) => assert LaneOk(LanesAt(s.queues, tenant).Get(level), s.log.place, tenant, level);
    case Running =>
    case Finished =>
    case DeadLetters(tenant) => assert DeadOk(DeadAt(s.dead, tenant), s.log.place, tenant);
  }

  /** An accepted job is in exactly one container, unless its TTL purged it or it was pruned after completion; no other job is anywhere. */
  lemma ExactlyOneContainer(c: Settings, calls: seq<Call>, id: string)
    requires Legal(c, calls)
    ensures var s := Run(c, calls);
            if id in s.log.place && !s.log.place[id].TimedOut? && !s.log.place[id].Pruned? then
              exists at :: id in JobsIn(s, at) && forall other :: id in JobsIn(s, other) ==> other == at
            else forall at :: id !in JobsIn(s, at)
  {
    hide Run, JobsIn, Placed;
    var s := Run(c, calls);
    RunIsGood(c, calls);
    forall at
      ensures id in JobsIn(s, at) <==> id in s.log.place && s.log.place[id] == PlaceOf(at)
    {
      ContainerHolds(s, at, id);
    }
    if id in s.log.place && !s.log.place[id].TimedOut? && !s.log.place[id].Pruned? {
      var at := match s.log.place[id]
        case InLane(tenant, level) => Lane(tenant, level)
        case InProcessing => Running
        case InCompleted => Finished
        case InDead(tenant) => DeadLetters(tenant)
        case _ => Running;
      assert id in JobsIn(s, at);
    }
  }

  // --- no accepted job is forgotten ---------------------------------------------

  lemma EnqueueRemembers(c: Settings, s: Store, job: Job, now: real, id: string)
    requires id in s.log.place
    ensures id in Enqueue(c, s, job, now).store.log.place
  {
    hide Load, Level;
  }

  lemma {:induction false} ScanLanesRemembers(s: Store, key: string, k: nat, types: seq<string>, now: real, id: string)
    requires k <= 4 && id in s.log.place
    ensures id in ScanLanes(s, key, k, types, now).store.log.place
    decreases 4 - k
  {
    hide Unexpired, Dropped, Overdue, FirstMatch;
    if k < 4 {
      ScanLanesRemembers(Purge(s, key, LEVELS[k], now), key, k + 1, types, now, id);
    }
  }

  lemma {:induction false} ScanRemembers(s: Store, order: seq<string>, types: seq<string>, now: real, id: string)
    requires id in s.log.place
    ensures id in ScanTenants(s, order, types, now).store.log.place
    decreases |order|
  {
    hide ScanLanes;
    if order != [] {
      var t := WithTenant(s, order[0]);
      ScanLanesRemembers(t, order[0], 0, types, now, id);
      ScanRemembers(ScanLanes(t, order[0], 0, types, now).store, order[1..], types, now, id);
    }
  }

  lemma {:induction false} DequeueRemembers(s: Store, order: seq<string>, types: seq<string>, max: nat, now: real, id: string)
    requires id in s.log.place
    ensures id in Dequeue(s, order, types, max, now).store.log.place
    decreases max
  {
    hide ScanTenants, Claim;
    if max > 0 {
      ScanChooses(s, order, types, now);
      ScanRemembers(s, order, types, now, id);
      var scan := ScanTenants(s, order, types, now);
      if scan.choice.Some? {
        ClaimRemembers(scan.store, scan.choice.value, now, id);
        DequeueRemembers(Claim(scan.store, scan.choice.value, now), order, types, max - 1, now, id);
      }
    }
  }

  lemma ClaimRemembers(s: Store, choice: Choice, now: real, id: string)
    requires Chosen(s, choice) && id in s.log.place
    ensures id in Claim(s, choice, now).log.place
  {
  }

  lemma FailRemembers(c: Settings, s: Store, id: string, error: string, retry: bool, now: real, other: string)
    requires other in s.log.place
    ensures other in Fail(c, s, id, error, retry, now).store.log.place
  {
    hide Enqueue;
    if id in s.processing {
      var j := s.processing[id].(error := Some(error));
      EnqueueRemembers(c, StopProcessing(s, id), ForRetry(c, j, now), now, other);
    }
  }

  lemma CancelRemembers(s: Store, id: string, now: real, other: string)
    requires other in s.log.place
    ensures other in Cancel(s, id, now).store.log.place
  {
    hide FindQueued;
  }

  lemma ApplyRemembers(c: Settings, s: Store, call: Call, id: string)
    requires id in s.log.place
    ensures id in Apply(c, s, call).log.place
  {
    hide Dequeue, Enqueue, Fail, Cancel, StaleIds;
    match call
    case Submit(job, now) => EnqueueRemembers(c, s, job, now, id);
    case Take(order, types, max, now) => DequeueRemembers(s, order, types, max, now, id);
    case Finish(_, _, _) =>
    case GiveUp(other, error, retry, now) => FailRemembers(c, s, other, error, retry, now, id);
    case Abort(other, now) => CancelRemembers(s, other, now, id);
  }

  /** A job whose submission was accepted has a place for the rest of the run. */
  lemma {:induction false} AcceptedIsRemembered(c: Settings, calls: seq<Call>, i: nat)
    requires Legal(c, calls) && i < |calls| && calls[i].Submit?
    requires Enqueue(c, Run(c, calls[..i]), calls[i].job, calls[i].now).accepted
    ensures calls[i].job.id in Run(c, calls).log.place
  {
    hide Good, Apply, Enqueue;
    var n := |calls| - 1;
    var s := Run(c, calls[..n]);
    RunIsGood(c, calls[..n]);
    if i < n {
      assert calls[..n][..i] == calls[..i];
      AcceptedIsRemembered(c, calls[..n], i);
      ApplyRemembers(c, s, calls[n], calls[i].job.id);
    } else {
      AcceptedIsPlaced(c, s, calls[n].job, calls[n].now);
    }
  }

  lemma AcceptedIsPlaced(c: Settings, s: Store, job: Job, now: real)
    requires Good(c, s) && Fresh(s, job) && Enqueue(c, s, job, now).accepted
    ensures job.id in Apply(c, s, Submit(job, now)).log.place
  {
    hide Placed, Audited, Bounded, Landed, Enqueue;
    EnqueueEffect(c, s, job, now);
  }

  /** Within a container no job appears twice. */
  lemma NoDuplicates(c: Settings, calls: seq<Call>, key: string, p: Priority)
    requires Legal(c, calls)
    ensures var lane := LanesAt(Run(c, calls).queues, key).Get(p);
            forall i, j :: 0 <= i < j < |lane| ==> lane[i].id != lane[j].id
    ensures var jobs := DeadAt(Run(c, calls).dead, key);
            forall i, j :: 0 <= i < j < |jobs| ==> jobs[i].id != jobs[j].id
  {
    hide Run, QueuedJob, DeadJob;
    var s := Run(c, calls);
    RunIsGood(c, calls);
    assert LaneOk(LanesAt(s.queues, key).Get(p), s.log.place, key, p);
    assert DeadOk(DeadAt(s.dead, key), s.log.place, key);
  }

  ghost predicate Stores(s: Store, at: Container, j: Job) {
    match at
    case Lane(tenant, level) => j in LanesAt(s.queues, tenant).Get(level)
    case Running => j.id in s.processing && s.processing[j.id] == j
    case Finished => j.id in s.completed && s.completed[j.id] == j
    case DeadLetters(tenant) => j in DeadAt(s.dead, tenant)
  }

  /**
   The container fixes the status (FAILED never appears), the lane and tenant; a queued job was
   handed out as often as it was retried, a running one once more, and no job more than
   `max_retries + 1` times.
   */
  lemma ContainerFixesJob(c: Settings, calls: seq<Call>, at: Container, j: Job)
    requires Legal(c, calls) && Stores(Run(c, calls), at, j)
    ensures match at
            case Lane(tenant, level) => j.status == Queued && tenant == KeyOf(j.tenant) && level == Level(j.priority) && |j.attempts| == j.retryCount
            case Running => j.status == Processing && |j.attempts| == j.retryCount + 1
            case Finished => j.status == Completed
            case DeadLetters(tenant) => (j.status == DeadLetter || j.status == Cancelled) && tenant == KeyOf(j.tenant)
    ensures |j.attempts| <= (if j.maxRetries > 0 then j.maxRetries else 0) + 1
    ensures at.Lane? || at.Running? ==> j.retryCount <= if j.maxRetries > 0 then j.maxRetries else 0
  {
    hide Run, Holds, HoldsMap;
    var s := Run(c, calls);
    RunIsGood(c, calls);
    match at
    case Lane(tenant, level) => assert LaneOk(LanesAt(s.queues, tenant).Get(level), s.log.place, tenant, level);
    case Running =>
    case Finished =>
    case DeadLetters(tenant) => assert DeadOk(DeadAt(s.dead, tenant), s.log.place, tenant);
  }

  /** Whatever happens to the retry, a job that was failed is back in a lane or among the dead letters. */
  lemma FailLosesNothing(c: Settings, calls: seq<Call>, id: string, error: string, retry: bool, now: real)
    requires Legal(c, calls) && id in Run(c, calls).processing
    ensures var s, r := Run(c, calls), Fail(c, Run(c, calls), id, error, retry, now);
            && r.ok
            && (forall other :: other in s.log.place ==> other in r.store.log.place)
            && exists key, p :: id in JobsIn(r.store, Lane(key, p)) || id in JobsIn(r.store, DeadLetters(key))
  {
    hide Run, Good, Placed, Enqueue, BuryFailed, JobsIn, Ready, DeadJob, RunningJob;
    var s := Run(c, calls);
    RunIsGood(c, calls);
    var r := Fail(c, s, id, error, retry, now);
    FailKeeps(c, s, id, error, retry, now);
    FailPlaces(c, s, id, error, retry, now);
    GoodIsPlaced(c, r.store);
    match r.store.log.place[id] {
      case InLane(key, p) =>
        ContainerHolds(r.store, Lane(key, p), id);
      case InDead(key) =>
        ContainerHolds(r.store, DeadLetters(key), id);
        assert id in JobsIn(r.store, Lane(key, Low)) || id in JobsIn(r.store, DeadLetters(key));
      case _ =>
    }
  }

  lemma GoodIsPlaced(c: Settings, s: Store)
    requires Good(c, s)
    ensures Placed(s)
  {
  }

  lemma FailPlaces(c: Settings, s: Store, id: string, error: string, retry: bool, now: real)
    requires Good(c, s) && id in s.processing
    ensures var t := Fail(c, s, id, error, retry, now).store;
            && (forall other :: other in s.log.place ==> other in t.log.place)
            && id in t.log.place && (t.log.place[id].InLane? || t.log.place[id].InDead?)
  {
    hide Placed, Audited, Bounded, Landed, StopProcessing, Enqueue, BuryFailed, Ready, Weight, DeadJob, RunningJob;
    var j := s.processing[id].(error := Some(error));
    var t := StopProcessing(s, id);
    StopKeeps(s, id);
    StopTouches(s, id);
    RetryDies(c, s.processing[id], j, now);
    if retry && j.retryCount < j.maxRetries {
      RetryFrom(c, s.processing[id], j, now);
      EnqueueEffect(c, t, ForRetry(c, j, now), now);
      var a := Enqueue(c, t, ForRetry(c, j, now), now);
      if !a.accepted {
        BuryFailedKeeps(a.store, Died(a.job, now));
      }
    } else {
      BuryFailedKeeps(t, Died(j, now));
    }
  }

  /** The statistics account for every container. */
  lemma StatisticsBalance(c: Settings, calls: seq<Call>)
    requires Legal(c, calls)
    ensures var s := Run(c, calls);
            && s.stats.enqueued == TotalQueued(s) + s.stats.dequeued + s.stats.expired + s.log.cancelledQueued
            && s.stats.dequeued == |s.processing| + s.stats.completed + s.log.retried + s.stats.deadLettered + s.log.cancelledRunning
            && s.stats.completed == |s.completed| + s.log.pruned + s.log.cancelledDone
            && s.stats.cancelled == s.log.cancelledQueued + s.log.cancelledRunning + s.log.cancelledDone
            && s.stats.failed == s.stats.deadLettered
            && Sum(s.dead, Length) == s.stats.deadLettered + s.stats.cancelled
  {
    hide Run, Placed, Bounded, Landed, Sum;
    RunIsGood(c, calls);
  }

  lemma QueuesStayBounded(c: Settings, calls: seq<Call>, tenant: string)
    requires Legal(c, calls)
    ensures Size(LanesAt(Run(c, calls).queues, KeyOf(tenant))) <= if c.maxSize > 0 then c.maxSize else 0
  {
    hide Run, Placed, Audited, Landed, Size;
    RunIsGood(c, calls);
  }

  /** The steps the submissions of a run can pay for: three for a job, and two more for each retry it may get. */
  function Budget(calls: seq<Call>): nat {
    if calls == [] then 0
    else
      var n := |calls| - 1;
      Budget(calls[..n]) + (if calls[n].Submit? then 3 + 2 * Cap(calls[n].job) else 0)
  }

  lemma {:induction false} GrantedIsBudgeted(c: Settings, calls: seq<Call>)
    requires Legal(c, calls)
    ensures Run(c, calls).log.granted <= Budget(calls)
  {
    hide Apply, Placed, Audited, Bounded, Landed;
    if calls != [] {
      var n := |calls| - 1;
      var s := Run(c, calls[..n]);
      GrantedIsBudgeted(c, calls[..n]);
      RunIsGood(c, calls[..n]);
      ApplyGrants(c, s, calls[n]);
    }
  }

  lemma ApplyGrants(c: Settings, s: Store, call: Call)
    requires Good(c, s) && (call.Submit? ==> Fresh(s, call.job))
    ensures Apply(c, s, call).log.granted <= s.log.granted + if call.Submit? then 3 + 2 * Cap(call.job) else 0
  {
    hide Placed, Audited, Bounded, Landed, Dequeue, Enqueue, Complete, Fail, Cancel;
    match call
    case Submit(job, now) =>
      EnqueueEffect(c, s, job, now);
    case Take(order, types, max, now) => DequeueGrants(c, s, order, types, max, now);
    case Finish(id, result, now) => CompleteGrants(s, id, result, now);
    case GiveUp(id, error, retry, now) => FailGrants(c, s, id, error, retry, now);
    case Abort(id, now) => CancelGrants(s, id, now);
  }

  lemma CompleteGrants(s: Store, id: string, result: string, now: real)
    ensures Complete(s, id, result, now).store.log.granted == s.log.granted
  {
    hide StaleIds;
  }

  lemma FailGrants(c: Settings, s: Store, id: string, error: string, retry: bool, now: real)
    ensures Fail(c, s, id, error, retry, now).store.log.granted == s.log.granted
  {
    hide Load, Level;
  }

  lemma CancelGrants(s: Store, id: string, now: real)
    ensures Cancel(s, id, now).store.log.granted == s.log.granted
  {
    hide FindQueued;
  }

  lemma ScanGrants(c: Settings, s: Store, order: seq<string>, types: seq<string>, now: real)
    requires Good(c, s)
    ensures var t := ScanTenants(s, order, types, now).store; Good(c, t) && t.log.granted == s.log.granted
  {
    hide Placed, Audited, Bounded, Landed, ScanTenants;
    ScanPurges(c, s, order, types, now);
    PurgedIsGood(c, s, ScanTenants(s, order, types, now).store);
  }

  lemma ClaimGrants(s: Store, choice: Choice, now: real)
    requires Chosen(s, choice)
    ensures Claim(s, choice, now).log.granted == s.log.granted
  {
  }

  lemma {:induction false} DequeueGrants(c: Settings, s: Store, order: seq<string>, types: seq<string>, max: nat, now: real)
    requires Good(c, s)
    ensures Dequeue(s, order, types, max, now).store.log.granted == s.log.granted
    decreases max
  {
    hide Good, ScanTenants, Claim;
    if max > 0 {
      ScanChooses(s, order, types, now);
      var scan := ScanTenants(s, order, types, now);
      ScanGrants(c, s, order, types, now);
      if scan.choice.Some? {
        ClaimKeeps(c, scan.store, scan.choice.value, now);
        ClaimGrants(scan.store, scan.choice.value, now);
        DequeueGrants(c, Claim(scan.store, scan.choice.value, now), order, types, max - 1, now);
      }
    }
  }

  /**
   Hand-outs, completions, retries, burials, cancellations, expiries and prunings together never
   exceed what the submissions of the run brought in.
   */
  lemma FinitelyManySteps(c: Settings, calls: seq<Call>)
    requires Legal(c, calls)
    ensures Steps(Run(c, calls)) + Work(Run(c, calls)) <= Budget(calls)
  {
    hide Run, Placed, Bounded, Landed, Work, Steps, Budget;
    RunIsGood(c, calls);
    GrantedIsBudgeted(c, calls);
  }
}
