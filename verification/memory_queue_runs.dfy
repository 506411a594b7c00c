/**
 Whole runs of the in-memory queue: for jobs submitted fresh and retried only through `fail`,
 conservation, the balance of the statistics, the capacity bound, the retry bound and the
 progress measure hold after every call.
 */
module QueueRuns {
  import opened Wrappers
  import opened Dictionaries
  import opened Jobs
  import opened MemoryQueue
  import opened QueuePlaces
  import opened QueueCounts

  /** Between calls no job is in a call's hands. */
  ghost predicate Landed(place: map<string, Place>) {
    forall id :: id in place ==> place[id] != Held
  }

  /** How often a job was handed out, finished, sent back, buried, cancelled, expired or pruned. */
  function Steps(s: Store): nat {
    s.stats.dequeued + s.stats.completed + s.log.retried + s.stats.deadLettered
    + s.stats.cancelled + s.stats.expired + s.log.pruned
  }

  /** The statistics balance against the containers, and the steps taken against the work granted. */
  ghost predicate Audited(s: Store) {
    && s.stats.enqueued == TotalQueued(s) + s.stats.dequeued + s.stats.expired + s.log.cancelledQueued
    && s.stats.dequeued == |s.processing| + s.stats.completed + s.log.retried + s.stats.deadLettered + s.log.cancelledRunning
    && s.stats.completed == |s.completed| + s.log.pruned + s.log.cancelledDone
    && s.stats.cancelled == s.log.cancelledQueued + s.log.cancelledRunning + s.log.cancelledDone
    && s.stats.failed == s.stats.deadLettered
    && DeadTotal(s) == s.stats.deadLettered + s.stats.cancelled
    && Steps(s) + Work(s) <= s.log.granted
  }

  ghost predicate Bounded(c: Settings, queues: Dict<string, Lanes>) {
    forall key :: Size(LanesAt(queues, key)) <= if c.maxSize > 0 then c.maxSize else 0
  }

  ghost predicate Good(c: Settings, s: Store) {
    Placed(s) && Landed(s.log.place) && Audited(s) && Bounded(c, s.queues)
  }

  // --- enqueue ------------------------------------------------------------------

  ghost predicate Ready(j: Job) {
    j.status == Queued && |j.attempts| == j.retryCount <= Cap(j)
  }

  lemma LevelOfValue(p: int)
    ensures Level(Value(Level(p))) == Level(p)
  {
  }

  /** What `enqueue` changes. */
  lemma EnqueueEffect(c: Settings, s: Store, job: Job, now: real)
    requires Placed(s) && (job.id in s.log.place ==> s.log.place[job.id] == Held) && Ready(job)
    ensures var a := Enqueue(c, s, job, now);
            && Placed(a.store) && a.job.id == job.id && Ready(a.job) && a.job.tenant == job.tenant
            && a.job == job.(expiresAt := a.job.expiresAt, priority := a.job.priority)
            && a.store.log.place == (if a.accepted then s.log.place[job.id := InLane(KeyOf(job.tenant), Level(job.priority))] else s.log.place)
            && a.store == s.(queues := a.store.queues, log := s.log.(place := a.store.log.place),
                             stats := s.stats.(enqueued := s.stats.enqueued + (if a.accepted then 1 else 0),
                                               rejectedFull := a.store.stats.rejectedFull))
            && TotalQueued(a.store) == TotalQueued(s) + (if a.accepted then 1 else 0)
            && Work(a.store) == Work(s) + (if a.accepted then QueuedWeight(job) else 0)
  {
    hide Placed, TotalQueued, Work, Load, Level, Accept, WithTenant, QueuedWeight, Value;
    var j := Stamped(c, job, now);
    var k := Normalised(j);
    LevelOfValue(job.priority);
    ReadyStays(job, j);
    ReadyStays(j, k);
    SameWeight(job, k);
    var t := if k.tenant != "" then WithTenant(s, k.tenant) else s;
    WithTenantKeeps(s, k.tenant);
    WithTenantCounts(s, k.tenant) by { PlacedIsOk(s); }
    WithTenantTouches(s, k.tenant);
    AcceptEffect(t, k);
    RejectEffect(t);
  }

  lemma SameWeight(j: Job, k: Job)
    requires k.maxRetries == j.maxRetries && k.retryCount == j.retryCount
    ensures QueuedWeight(k) == QueuedWeight(j)
  {
  }

  lemma WithTenantTouches(s: Store, key: string)
    ensures WithTenant(s, key) == s.(queues := WithTenant(s, key).queues)
  {
  }

  lemma AcceptEffect(s: Store, j: Job)
    requires Placed(s) && (j.id in s.log.place ==> s.log.place[j.id] == Held)
    requires QueuedJob(j, KeyOf(j.tenant), Level(j.priority))
    ensures var t := Accept(s, j);
            && Placed(t) && TotalQueued(t) == TotalQueued(s) + 1 && Work(t) == Work(s) + QueuedWeight(j)
            && t == s.(queues := t.queues, log := s.log.(place := s.log.place[j.id := InLane(KeyOf(j.tenant), Level(j.priority))]),
                       stats := s.stats.(enqueued := s.stats.enqueued + 1))
  {
    hide Lined, Buried, RunningOk, FinishedOk, Sum, MapSum, Append;
    PlacedIsOk(s);
    AppendKeeps(s, j);
    AppendCounts(s, j);
    AppendTouches(s, j);
  }

  lemma RejectEffect(s: Store)
    requires Placed(s)
    ensures Placed(Reject(s)) && TotalQueued(Reject(s)) == TotalQueued(s) && Work(Reject(s)) == Work(s)
  {
    hide Lined, Buried, RunningOk, FinishedOk, Sum, MapSum;
  }

  lemma ReadyStays(j: Job, k: Job)
    requires Ready(j) && k == j.(expiresAt := k.expiresAt, priority := k.priority)
    ensures Ready(k) && QueuedJob(k, KeyOf(k.tenant), Level(k.priority))
  {
  }

  lemma AppendTouches(s: Store, j: Job)
    ensures var t := Append(s, j);
            && t == s.(queues := t.queues, log := s.log.(place := t.log.place))
            && t.log.place == s.log.place[j.id := InLane(KeyOf(j.tenant), Level(j.priority))]
  {
  }

  lemma PlacedIsOk(s: Store)
    requires Placed(s)
    ensures s.queues.Ok() && s.dead.Ok()
  {
  }

  /** One tenant's jobs are among all jobs. */
  lemma OwnLoad(s: Store, tenant: string)
    requires s.queues.Ok()
    ensures Size(LanesAt(s.queues, KeyOf(tenant))) <= Load(s, tenant)
  {
    var key := KeyOf(tenant);
    SumPut(s.queues, key, LanesAt(s.queues, key), Size);
  }

  /** No tenant's queue exceeds the maximum, although a job without a tenant is measured against all of them. */
  lemma EnqueueBounded(c: Settings, s: Store, job: Job, now: real)
    requires s.queues.Ok() && Bounded(c, s.queues)
    ensures Bounded(c, Enqueue(c, s, job, now).store.queues)
  {
    OwnLoad(s, job.tenant);
    hide Load, TotalQueued, Level, Value, Size;
    var a := Enqueue(c, s, job, now);
    forall key
      ensures Size(LanesAt(a.store.queues, key)) <= if c.maxSize > 0 then c.maxSize else 0
    {
      assert Size(LanesAt(s.queues, key)) <= if c.maxSize > 0 then c.maxSize else 0;
      var k := Enqueue(c, s, job, now).job;
      assert LanesAt(a.store.queues, key) == LanesAt(s.queues, key)
        || (a.accepted && key == KeyOf(job.tenant)
            && LanesAt(a.store.queues, key) == LanesAt(s.queues, key).Put(Level(k.priority), LanesAt(s.queues, key).Get(Level(k.priority)) + [k]));
      SizeOfPut(LanesAt(s.queues, key), Level(k.priority), LanesAt(s.queues, key).Get(Level(k.priority)) + [k]);
    }
  }

  lemma SizeOfPut(lanes: Lanes, p: Priority, jobs: seq<Job>)
    ensures Size(lanes.Put(p, jobs)) + |lanes.Get(p)| == Size(lanes) + |jobs|
  {
  }

  // --- dequeue --------------------------------------------------------------------

  /** A scan only purges. */
  ghost predicate Purged(c: Settings, s: Store, t: Store) {
    && Placed(t) && Landed(t.log.place)
    && t == s.(queues := t.queues, stats := s.stats.(expired := t.stats.expired), log := s.log.(place := t.log.place))
    && TotalQueued(t) + t.stats.expired == TotalQueued(s) + s.stats.expired
    && Work(t) + t.stats.expired <= Work(s) + s.stats.expired
    && Bounded(c, t.queues)
  }

  lemma PurgePurges(c: Settings, s: Store, key: string, p: Priority, now: real)
    requires Placed(s) && Landed(s.log.place) && Bounded(c, s.queues)
    ensures Purged(c, s, Purge(s, key, p, now))
  {
    hide Placed, Sum, MapSum, Unexpired, Dropped, Overdue, Size, Purge;
    PlacedIsOk(s);
    PurgeKeeps(s, key, p, now);
    PurgeCounts(s, key, p, now);
    PurgeTouches(s, key, p, now);
    var t := Purge(s, key, p, now);
    var lanes := LanesAt(s.queues, key);
    WeightUnexpired(lanes.Get(p), now);
    SizeOfPut(lanes, p, Unexpired(lanes.Get(p), now));
    forall other
      ensures Size(LanesAt(t.queues, other)) <= if c.maxSize > 0 then c.maxSize else 0
    {
      assert Size(LanesAt(s.queues, other)) <= if c.maxSize > 0 then c.maxSize else 0;
    }
  }

  lemma PurgeTouches(s: Store, key: string, p: Priority, now: real)
    ensures var t := Purge(s, key, p, now);
            && t == s.(queues := t.queues, stats := s.stats.(expired := t.stats.expired), log := s.log.(place := t.log.place))
            && forall other :: LanesAt(t.queues, other) ==
                 if other == key then LanesAt(s.queues, key).Put(p, Unexpired(LanesAt(s.queues, key).Get(p), now))
                 else LanesAt(s.queues, other)
  {
  }

  lemma WithTenantPurges(c: Settings, s: Store, key: string)
    requires Placed(s) && Landed(s.log.place) && Bounded(c, s.queues)
    ensures Purged(c, s, WithTenant(s, key))
  {
    hide Placed, TotalQueued, Work, Size;
    PlacedIsOk(s);
    WithTenantKeeps(s, key);
    WithTenantCounts(s, key);
    assert forall other :: LanesAt(WithTenant(s, key).queues, other) == LanesAt(s.queues, other);
  }

  lemma {:induction false} ScanLanesPurges(c: Settings, s: Store, key: string, k: nat, types: seq<string>, now: real)
    requires k <= 4 && Placed(s) && Landed(s.log.place) && Bounded(c, s.queues)
    ensures Purged(c, s, ScanLanes(s, key, k, types, now).store)
    decreases 4 - k
  {
    hide Placed, TotalQueued, Work, Bounded, Purge, Landed;
    if k < 4 {
      PurgePurges(c, s, key, LEVELS[k], now);
      ScanLanesPurges(c, Purge(s, key, LEVELS[k], now), key, k + 1, types, now);
    }
  }

  lemma {:induction false} ScanPurges(c: Settings, s: Store, order: seq<string>, types: seq<string>, now: real)
    requires Placed(s) && Landed(s.log.place) && Bounded(c, s.queues)
    ensures Purged(c, s, ScanTenants(s, order, types, now).store)
    decreases |order|
  {
    hide Placed, TotalQueued, Work, Bounded, Landed, ScanLanes, WithTenant;
    if order != [] {
      var t := WithTenant(s, order[0]);
      WithTenantPurges(c, s, order[0]);
      ScanLanesPurges(c, t, order[0], 0, types, now);
      ScanPurges(c, ScanLanes(t, order[0], 0, types, now).store, order[1..], types, now);
    }
  }

  lemma PurgedIsGood(c: Settings, s: Store, t: Store)
    requires Good(c, s) && Purged(c, s, t)
    ensures Good(c, t)
  {
    hide Placed, TotalQueued, Work, Bounded, Landed, Sum, MapSum;
  }

  lemma ClaimKeeps(c: Settings, s: Store, choice: Choice, now: real)
    requires Good(c, s) && Chosen(s, choice)
    ensures Good(c, Claim(s, choice, now))
  {
    hide Lined, Buried, RunningOk, FinishedOk, Sum, MapSum, LanesWeight, Withdraw, Start, Weight;
    var key, p, i := choice.key, choice.level, choice.index;
    var j := LanesAt(s.queues, key).Get(p)[i];
    var w := Withdraw(s, key, p, i);
    PlacedIsOk(s);
    WithdrawKeeps(s, key, p, i);
    WithdrawCounts(s, key, p, i);
    WithdrawTouches(s, key, p, i);
    HeldIsNotRunning(w, j.id);
    StartKeeps(w, Begun(j, now));
    StartCounts(w, Begun(j, now));
    StartTouches(w, Begun(j, now));
    assert QueuedWeight(j) == RunningWeight(Begun(j, now)) + 1 by { WeightOfStart(j, now); }
    WithdrawBounded(c, s, key, p, i);
  }

  lemma HeldIsNotRunning(s: Store, id: string)
    requires Placed(s) && id in s.log.place && s.log.place[id] == Held
    ensures id !in s.processing && id !in s.completed
  {
  }

  lemma WeightOfStart(j: Job, now: real)
    ensures QueuedWeight(j) == RunningWeight(Begun(j, now)) + 1
  {
  }

  lemma WithdrawTouches(s: Store, key: string, p: Priority, i: nat)
    requires i < |LanesAt(s.queues, key).Get(p)|
    ensures var t := Withdraw(s, key, p, i);
            && t == s.(queues := t.queues, log := s.log.(place := t.log.place))
            && t.log.place == s.log.place[LanesAt(s.queues, key).Get(p)[i].id := Held]
  {
  }

  lemma StartTouches(s: Store, j: Job)
    ensures Start(s, j) == s.(processing := Start(s, j).processing, log := s.log.(place := s.log.place[j.id := InProcessing]))
  {
  }

  lemma WithdrawBounded(c: Settings, s: Store, key: string, p: Priority, i: nat)
    requires Bounded(c, s.queues) && i < |LanesAt(s.queues, key).Get(p)|
    ensures Bounded(c, Withdraw(s, key, p, i).queues)
    ensures DeadTotal(Withdraw(s, key, p, i)) == DeadTotal(s)
  {
    var lane := LanesAt(s.queues, key).Get(p);
    SizeOfPut(LanesAt(s.queues, key), p, Without(lane, i));
    var t := Withdraw(s, key, p, i);
    forall other
      ensures Size(LanesAt(t.queues, other)) <= if c.maxSize > 0 then c.maxSize else 0
    {
      assert Size(LanesAt(s.queues, other)) <= if c.maxSize > 0 then c.maxSize else 0;
    }
  }

  lemma {:induction false} DequeueKeeps(c: Settings, s: Store, order: seq<string>, types: seq<string>, max: nat, now: real)
    requires Good(c, s)
    ensures Good(c, Dequeue(s, order, types, max, now).store)
    decreases max
  {
    hide Placed, Audited, Bounded, Landed, ScanTenants, Claim, Purged;
    if max > 0 {
      var scan := ScanTenants(s, order, types, now);
      ScanChooses(s, order, types, now);
      ScanPurges(c, s, order, types, now);
      PurgedIsGood(c, s, scan.store);
      if scan.choice.Some? {
        ClaimKeeps(c, scan.store, scan.choice.value, now);
        DequeueKeeps(c, Claim(scan.store, scan.choice.value, now), order, types, max - 1, now);
      }
    }
  }

  // --- complete, fail, cancel -------------------------------------------------------

  /** Facts the containers do not state twice: sizes and work only depend on the containers. */
  lemma SameSizes(s: Store, t: Store)
    requires t.queues == s.queues && t.processing == s.processing && t.completed == s.completed && t.dead == s.dead
    requires t.log.place == s.log.place
    ensures TotalQueued(t) == TotalQueued(s) && Work(t) == Work(s) && DeadTotal(t) == DeadTotal(s)
    ensures Placed(s) ==> Placed(t)
  {
  }

  lemma KeepTouches(s: Store, j: Job)
    ensures Keep(s, j) == s.(completed := s.completed[j.id := j], log := s.log.(place := s.log.place[j.id := InCompleted]))
    ensures TotalQueued(Keep(s, j)) == TotalQueued(s) && DeadTotal(Keep(s, j)) == DeadTotal(s)
  {
  }

  lemma StopTouches(s: Store, id: string)
    ensures var t := StopProcessing(s, id);
            && t == s.(processing := t.processing, log := s.log.(place := s.log.place[id := Held]))
            && TotalQueued(t) == TotalQueued(s) && DeadTotal(t) == DeadTotal(s)
  {
  }

  lemma BuryTouches(s: Store, j: Job)
    ensures var t := Bury(s, j);
            && t == s.(dead := t.dead, log := s.log.(place := s.log.place[j.id := InDead(KeyOf(j.tenant))]))
            && TotalQueued(t) == TotalQueued(s)
  {
  }

  lemma CompleteKeeps(c: Settings, s: Store, id: string, result: string, now: real)
    requires Good(c, s)
    ensures Good(c, Complete(s, id, result, now).store)
  {
    hide Placed, TotalQueued, Work, DeadTotal, Keep, StopProcessing, Prune, Bounded, Weight;
    if id in s.processing {
      var v := Finished(s, id, result, now);
      FinishKeeps(c, s, id, result, now);
      PruneKeeps(v, now);
      PruneCounts(v, now);
      PruneTouches(v, now);
    }
  }

  /** `complete` before it prunes. */
  function Finished(s: Store, id: string, result: string, now: real): Store
    requires id in s.processing
  {
    var u := Keep(StopProcessing(s, id), s.processing[id].(status := Completed, completedAt := Some(now), result := Some(result)));
    u.(stats := u.stats.(completed := u.stats.completed + 1))
  }

  lemma FinishKeeps(c: Settings, s: Store, id: string, result: string, now: real)
    requires Good(c, s) && id in s.processing
    ensures Good(c, Finished(s, id, result, now))
  {
    hide Placed, TotalQueued, Work, DeadTotal, Keep, StopProcessing, Bounded, Weight;
    var j := s.processing[id].(status := Completed, completedAt := Some(now), result := Some(result));
    var t := StopProcessing(s, id);
    StopKeeps(s, id);
    StopCounts(s, id);
    StopTouches(s, id);
    FinishedFrom(s.processing[id], j);
    HeldIsNotRunning(t, j.id);
    KeepKeeps(t, j);
    KeepCounts(t, j);
    KeepTouches(t, j);
    SameSizes(Keep(t, j), Finished(s, id, result, now));
  }

  lemma FinishedFrom(j: Job, k: Job)
    requires RunningJob(j) && k.status == Completed && k.attempts == j.attempts && k.maxRetries == j.maxRetries && k.retryCount == j.retryCount
    ensures FinishedJob(k) && RunningWeight(j) >= 2
  {
  }

  lemma PruneTouches(s: Store, now: real)
    ensures var t := Prune(s, now);
            && t == s.(completed := t.completed, log := s.log.(pruned := t.log.pruned, place := t.log.place))
            && TotalQueued(t) == TotalQueued(s) && DeadTotal(t) == DeadTotal(s)
  {
  }

  lemma DeadFrom(j: Job, k: Job)
    requires RunningJob(j) && (k.status == DeadLetter || k.status == Cancelled)
    requires k.attempts == j.attempts && k.maxRetries == j.maxRetries && k.tenant == j.tenant
    ensures DeadJob(k, KeyOf(k.tenant)) && RunningWeight(j) >= 2
  {
  }

  lemma BuryFailedKeeps(s: Store, j: Job)
    requires Placed(s) && j.id in s.log.place && s.log.place[j.id] == Held && DeadJob(j, KeyOf(j.tenant))
    ensures var t := BuryFailed(s, j);
            && Placed(t) && TotalQueued(t) == TotalQueued(s) && Work(t) == Work(s) && DeadTotal(t) == DeadTotal(s) + 1
            && t == s.(dead := t.dead, log := s.log.(place := s.log.place[j.id := InDead(KeyOf(j.tenant))]),
                       stats := s.stats.(failed := s.stats.failed + 1, deadLettered := s.stats.deadLettered + 1))
  {
    hide Placed, TotalQueued, Work, DeadTotal, Bury;
    BuryKeeps(s, j);
    BuryCounts(s, j) by { PlacedIsOk(s); }
    BuryTouches(s, j);
    SameSizes(Bury(s, j), BuryFailed(s, j));
  }

  /** A retry costs one of the retries left. */
  lemma RetryFrom(c: Settings, j: Job, k: Job, now: real)
    requires RunningJob(j) && k == j.(error := k.error) && k.retryCount < k.maxRetries
    ensures Ready(ForRetry(c, k, now)) && QueuedWeight(ForRetry(c, k, now)) + 1 == RunningWeight(j)
  {
  }

  lemma RetryDies(c: Settings, j: Job, k: Job, now: real)
    requires RunningJob(j) && k == j.(error := k.error)
    ensures DeadJob(Died(k, now), KeyOf(k.tenant)) && RunningWeight(j) >= 2
    ensures forall a: Job :: a == ForRetry(c, k, now).(expiresAt := a.expiresAt, priority := a.priority) ==> DeadJob(Died(a, now), KeyOf(k.tenant))
  {
  }

  /** A job that may not be retried is buried. */
  lemma FailBuries(c: Settings, s: Store, id: string, error: string, retry: bool, now: real)
    requires Good(c, s) && id in s.processing
    requires var j := s.processing[id]; !(retry && j.retryCount < j.maxRetries)
    ensures Good(c, Fail(c, s, id, error, retry, now).store)
  {
    hide Placed, TotalQueued, Work, DeadTotal, StopProcessing, Bounded, BuryFailed, Enqueue, Ready, Weight, DeadJob, RunningJob;
    var j, t := s.processing[id].(error := Some(error)), StopProcessing(s, id);
    StopKeeps(s, id);
    StopCounts(s, id);
    StopTouches(s, id);
    RetryDies(c, s.processing[id], j, now);
    BuryFailedKeeps(t, Died(j, now));
  }

  /** A job that may be retried goes back to its lane, or is buried when the lane is full. */
  lemma FailRetries(c: Settings, s: Store, id: string, error: string, now: real)
    requires Good(c, s) && id in s.processing && s.processing[id].retryCount < s.processing[id].maxRetries
    ensures Good(c, Fail(c, s, id, error, true, now).store)
  {
    hide Placed, TotalQueued, Work, DeadTotal, StopProcessing, Bounded, BuryFailed, Enqueue, Ready, Weight, DeadJob, RunningJob;
    var j, t := s.processing[id].(error := Some(error)), StopProcessing(s, id);
    StopKeeps(s, id);
    StopCounts(s, id);
    StopTouches(s, id);
    RetryDies(c, s.processing[id], j, now);
    RetryFrom(c, s.processing[id], j, now);
    EnqueueEffect(c, t, ForRetry(c, j, now), now);
    EnqueueBounded(c, t, ForRetry(c, j, now), now) by { PlacedIsOk(t); }
    var a := Enqueue(c, t, ForRetry(c, j, now), now);
    DeadIgnores(t, a.store);
    if a.accepted {
      SameSizes(a.store, Fail(c, s, id, error, true, now).store);
    } else {
      BuryFailedKeeps(a.store, Died(a.job, now));
    }
  }

  /** `fail` sends the job back or buries it; even a rejected retry is buried, not lost. */
  lemma FailKeeps(c: Settings, s: Store, id: string, error: string, retry: bool, now: real)
    requires Good(c, s)
    ensures Good(c, Fail(c, s, id, error, retry, now).store)
  {
    hide Good, StopProcessing, BuryFailed, Enqueue;
    if id in s.processing {
      if retry && s.processing[id].retryCount < s.processing[id].maxRetries {
        FailRetries(c, s, id, error, now);
      } else {
        FailBuries(c, s, id, error, retry, now);
      }
    }
  }

  lemma DeadIgnores(s: Store, t: Store)
    requires t.dead == s.dead
    ensures DeadTotal(t) == DeadTotal(s)
  {
  }

  lemma CancelQueuedKeeps(c: Settings, s: Store, id: string, now: real)
    requires Good(c, s)
    ensures id !in s.processing && FindQueued(s, s.queues.keys, id).Some? ==> Good(c, Cancel(s, id, now).store)
  {
    hide Placed, TotalQueued, Work, DeadTotal, Bounded, Bury, Withdraw, Weight, DeadJob, QueuedJob, FindQueued;
    FindQueuedChooses(s, s.queues.keys, id);
    if id !in s.processing && FindQueued(s, s.queues.keys, id).Some? {
      var choice := FindQueued(s, s.queues.keys, id).value;
      var key, p, i := choice.key, choice.level, choice.index;
      var j := LanesAt(s.queues, key).Get(p)[i];
      var w := Withdraw(s, key, p, i);
      WithdrawKeeps(s, key, p, i);
      WithdrawCounts(s, key, p, i) by { PlacedIsOk(s); }
      WithdrawTouches(s, key, p, i);
      WithdrawBounded(c, s, key, p, i);
      VoidQueued(j, key, p, now);
      BuryKeeps(w, Void(j, now));
      BuryCounts(w, Void(j, now)) by { PlacedIsOk(w); }
      BuryTouches(w, Void(j, now));
      SameSizes(Bury(w, Void(j, now)), Cancel(s, id, now).store);
    }
  }

  lemma VoidQueued(j: Job, key: string, p: Priority, now: real)
    requires QueuedJob(j, key, p)
    ensures DeadJob(Void(j, now), KeyOf(j.tenant)) && QueuedWeight(j) >= 3
  {
  }

  lemma VoidFinished(j: Job, now: real)
    requires FinishedJob(j)
    ensures DeadJob(Void(j, now), KeyOf(j.tenant))
  {
  }

  lemma UncompleteTouches(s: Store, id: string)
    ensures var t := Uncomplete(s, id);
            && t == s.(completed := t.completed, log := s.log.(place := s.log.place[id := Held]))
            && TotalQueued(t) == TotalQueued(s) && DeadTotal(t) == DeadTotal(s)
  {
  }

  lemma CancelKeeps(c: Settings, s: Store, id: string, now: real)
    requires Good(c, s)
    ensures Good(c, Cancel(s, id, now).store)
  {
    hide Placed, TotalQueued, Work, DeadTotal, Bounded, Bury, Withdraw, StopProcessing, Uncomplete, Weight, DeadJob, RunningJob, FinishedJob;
    if id in s.processing {
      var t, j := StopProcessing(s, id), Void(s.processing[id], now);
      StopKeeps(s, id);
      StopCounts(s, id);
      StopTouches(s, id);
      DeadFrom(s.processing[id], j);
      BuryKeeps(t, j);
      BuryCounts(t, j) by { PlacedIsOk(t); }
      BuryTouches(t, j);
      SameSizes(Bury(t, j), Cancel(s, id, now).store);
    } else if FindQueued(s, s.queues.keys, id).Some? {
      CancelQueuedKeeps(c, s, id, now);
    } else if id in s.completed {
      var t, j := Uncomplete(s, id), Void(s.completed[id], now);
      UncompleteKeeps(s, id);
      UncompleteCounts(s, id);
      UncompleteTouches(s, id);
      VoidFinished(s.completed[id], now);
      BuryKeeps(t, j);
      BuryCounts(t, j) by { PlacedIsOk(t); }
      BuryTouches(t, j);
      SameSizes(Bury(t, j), Cancel(s, id, now).store);
    }
  }

  // --- runs ----------------------------------------------------------------------------

  datatype Call =
    | Submit(job: Job, now: real)
    | Take(order: seq<string>, types: seq<string>, max: nat, now: real)
    | Finish(id: string, result: string, now: real)
    | GiveUp(id: string, error: string, retry: bool, now: real)
    | Abort(id: string, now: real)

  /** A job as a client submits it, under an id that was never accepted before. */
  ghost predicate Fresh(s: Store, j: Job) {
    j.status == Queued && j.retryCount == 0 && j.attempts == [] && j.id !in s.log.place
  }

  function Grant(s: Store, work: nat): Store {
    s.(log := s.log.(granted := s.log.granted + work))
  }

  function Apply(c: Settings, s: Store, call: Call): Store {
    match call
    case Submit(job, now) =>
      var a := Enqueue(c, s, job, now);
      if a.accepted then Grant(a.store, QueuedWeight(job)) else a.store
    case Take(order, types, max, now) => Dequeue(s, order, types, max, now).store
    case Finish(id, result, now) => Complete(s, id, result, now).store
    case GiveUp(id, error, retry, now) => Fail(c, s, id, error, retry, now).store
    case Abort(id, now) => Cancel(s, id, now).store
  }

  function Run(c: Settings, calls: seq<Call>): Store {
    if calls == [] then New() else Apply(c, Run(c, calls[..|calls| - 1]), calls[|calls| - 1])
  }

  /** Every submission in the run is fresh when it is made. */
  ghost predicate Legal(c: Settings, calls: seq<Call>) {
    calls != [] ==>
      var n := |calls| - 1;
      Legal(c, calls[..n]) && (calls[n].Submit? ==> Fresh(Run(c, calls[..n]), calls[n].job))
  }

  lemma SubmitKeeps(c: Settings, s: Store, job: Job, now: real)
    requires Good(c, s) && Fresh(s, job)
    ensures Good(c, Apply(c, s, Submit(job, now)))
  {
    hide Placed, TotalQueued, Work, DeadTotal, Bounded, Enqueue, Weight;
    EnqueueEffect(c, s, job, now);
    EnqueueBounded(c, s, job, now) by { PlacedIsOk(s); }
    var a := Enqueue(c, s, job, now);
    DeadIgnores(s, a.store);
    if a.accepted {
      SameSizes(a.store, Grant(a.store, QueuedWeight(job)));
    }
  }

  ghost predicate Blank(s: Store) {
    && s.queues == Empty() && s.dead == Empty() && s.processing == map[] && s.completed == map[]
    && s.stats == Stats(0, 0, 0, 0, 0, 0, 0, 0) && s.log == History(map[], 0, 0, 0, 0, 0, 0)
  }

  lemma BlankIsPlaced(s: Store)
    requires Blank(s)
    ensures Placed(s) && Landed(s.log.place)
  {
    hide QueuedJob, RunningJob, FinishedJob, DeadJob;
    forall key, p
      ensures LaneOk(LanesAt(s.queues, key).Get(p), s.log.place, key, p)
    {
      assert LanesAt(s.queues, key).Get(p) == [];
    }
    forall key
      ensures DeadOk(DeadAt(s.dead, key), s.log.place, key)
    {
      assert DeadAt(s.dead, key) == [];
    }
  }

  lemma BlankIsAudited(s: Store)
    requires Blank(s)
    ensures Audited(s)
  {
    hide SumOf, MapSum, Weight;
    SumsOfNothing<string, Lanes>(Size);
    SumsOfNothing<string, Lanes>(LanesWeight);
    SumsOfNothing<string, Job>(RunningWeight);
    SumsOfNothing<string, seq<Job>>(Length);
  }

  lemma BlankIsGood(c: Settings, s: Store)
    requires Blank(s)
    ensures Good(c, s)
  {
    hide Placed, Landed, Audited;
    BlankIsPlaced(s);
    BlankIsAudited(s);
    assert forall key :: LanesAt(s.queues, key) == NO_LANES;
  }

  lemma NewIsBlank()
    ensures Blank(New())
  {
  }

  /** Conservation, balance and capacity after every call of every run. */
  lemma {:induction false} RunIsGood(c: Settings, calls: seq<Call>)
    requires Legal(c, calls)
    ensures Good(c, Run(c, calls))
  {
    hide Good, Apply, Dequeue, Enqueue, Complete, Fail, Cancel, New;
    if calls == [] {
      BlankIsGood(c, Run(c, calls)) by { NewIsBlank(); }
    } else {
      var n := |calls| - 1;
      var s := Run(c, calls[..n]);
      RunIsGood(c, calls[..n]);
      ApplyKeeps(c, s, calls[n]);
    }
  }

  lemma ApplyKeeps(c: Settings, s: Store, call: Call)
    requires Good(c, s) && (call.Submit? ==> Fresh(s, call.job))
    ensures Good(c, Apply(c, s, call))
  {
    hide Good, Dequeue, Enqueue, Complete, Fail, Cancel;
    match call
    case Submit(job, now) => SubmitKeeps(c, s, job, now);
    case Take(order, types, max, now) => DequeueKeeps(c, s, order, types, max, now);
    case Finish(id, result, now) => CompleteKeeps(c, s, id, result, now);
    case GiveUp(id, error, retry, now) => FailKeeps(c, s, id, error, retry, now);
    case Abort(id, now) => CancelKeeps(c, s, id, now);
  }
}
