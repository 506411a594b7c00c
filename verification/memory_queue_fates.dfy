/**
 What becomes of one job under each call, told by the lanes, the dead letters and the job's own
 fields: when a submission is accepted and with which TTL, when a failed job is retried, who is
 buried and as what, and what a worker is given.
 */
module QueueFates {
  import opened Wrappers
  import opened Jobs
  import opened MemoryQueue
  import opened QueuePlaces
  import opened QueueRuns
  import opened QueueOrder

  /** A tenant's own jobs, or for a job without a tenant those of every tenant, leave room for one more. */
  ghost predicate HasRoom(c: Settings, s: Store, tenant: string) {
    (if tenant != "" then Size(LanesAt(s.queues, tenant)) else TotalQueued(s)) < c.maxSize
  }

  function HomeOf(tenant: string): string { if tenant == "" then "default" else tenant }

  /** The lane of a priority; whatever is not one of the four known values is normal. */
  ghost predicate Filed(priority: int, p: Priority) {
    (p.Low? <==> priority == 0) && (p.High? <==> priority == 100) && (p.Critical? <==> priority == 200)
  }

  /** `j` is behind the other jobs of its lane, and nothing else has changed in any lane. */
  ghost predicate Joins(s: Store, t: Store, j: Job) {
    exists p :: Filed(j.priority, p)
      && forall key, q :: LanesAt(t.queues, key).Get(q)
           == LanesAt(s.queues, key).Get(q) + if key == HomeOf(j.tenant) && q == p then [j] else []
  }

  ghost predicate SameLanes(s: Store, t: Store) {
    forall key :: LanesAt(t.queues, key) == LanesAt(s.queues, key)
  }

  /** `j` is the last of its tenant's dead letters. */
  ghost predicate Buries(s: Store, t: Store, j: Job) {
    forall key :: DeadAt(t.dead, key) == DeadAt(s.dead, key) + if key == HomeOf(j.tenant) then [j] else []
  }

  ghost predicate SameDead(s: Store, t: Store) {
    forall key :: DeadAt(t.dead, key) == DeadAt(s.dead, key)
  }

  /** Unknown priorities become normal, 50. */
  ghost predicate Corrected(priority: int, corrected: int) {
    corrected == if priority == 0 || priority == 100 || priority == 200 then priority else 50
  }

  // --- submission -------------------------------------------------------------------------

  lemma AppendJoins(s: Store, j: Job)
    ensures Joins(s, Append(s, j), j)
  {
    var key, p := KeyOf(j.tenant), Level(j.priority);
    var t := Append(s, j);
    assert Filed(j.priority, p);
    forall other, q
      ensures LanesAt(t.queues, other).Get(q) == LanesAt(s.queues, other).Get(q) + if other == HomeOf(j.tenant) && q == p then [j] else []
    {
      LookupPut(s.queues, key, p, LanesAt(s.queues, key).Get(p) + [j], other, q);
    }
  }

  lemma JoinsFrom(s: Store, u: Store, t: Store, j: Job)
    requires SameLanes(s, u) && Joins(u, t, j)
    ensures Joins(s, t, j)
  {
    var p :| Filed(j.priority, p)
      && forall key, q :: LanesAt(t.queues, key).Get(q)
           == LanesAt(u.queues, key).Get(q) + if key == HomeOf(j.tenant) && q == p then [j] else [];
    forall key, q
      ensures LanesAt(t.queues, key).Get(q) == LanesAt(s.queues, key).Get(q) + if key == HomeOf(j.tenant) && q == p then [j] else []
    {
      assert LanesAt(u.queues, key) == LanesAt(s.queues, key);
    }
  }

  /**
   A submission is accepted exactly when it is not past its expiry (its own, or the default TTL from
   now on) and there is room; then it joins its lane, and otherwise nothing is queued.
   */
  lemma SubmissionFate(c: Settings, s: Store, job: Job, now: real)
    ensures var a, expiry := Enqueue(c, s, job, now), if job.expiresAt.Some? then job.expiresAt.value else now + c.ttl;
            && (a.accepted <==> now <= expiry && HasRoom(c, s, job.tenant))
            && (a.accepted ==> Joins(s, a.store, a.job) && a.job == job.(expiresAt := Some(expiry), priority := a.job.priority)
                               && Corrected(job.priority, a.job.priority))
            && (!a.accepted ==> SameLanes(s, a.store) && a.job == job.(expiresAt := Some(expiry), priority := a.job.priority))
            && a.store.dead == s.dead && a.store.processing == s.processing && a.store.completed == s.completed
            && a.store.stats.enqueued == s.stats.enqueued + (if a.accepted then 1 else 0)
            && a.store.stats.rejectedFull == s.stats.rejectedFull + (if now <= expiry && !HasRoom(c, s, job.tenant) then 1 else 0)
  {
    hide TotalQueued, Append, Joins;
    var j := Stamped(c, job, now);
    var k := Normalised(j);
    var u := if k.tenant != "" then WithTenant(s, k.tenant) else s;
    assert SameLanes(s, u);
    AppendJoins(u, k);
    JoinsFrom(s, u, Append(u, k), k);
    JoinsAlike(s, Append(u, k), Accept(u, k), k);
    AppendTouches(u, k);
  }

  lemma JoinsAlike(s: Store, t: Store, u: Store, j: Job)
    requires Joins(s, t, j) && u.queues == t.queues
    ensures Joins(s, u, j)
  {
    var p :| Filed(j.priority, p)
      && forall key, q :: LanesAt(t.queues, key).Get(q)
           == LanesAt(s.queues, key).Get(q) + if key == HomeOf(j.tenant) && q == p then [j] else [];
    assert Filed(j.priority, p);
  }

  lemma AppendTouches(s: Store, j: Job)
    ensures var t := Append(s, j); t.dead == s.dead && t.processing == s.processing && t.completed == s.completed && t.stats == s.stats
  {
  }

  // --- failure --------------------------------------------------------------------------------

  /** A retry is due: it was asked for, one is left, and the job would be accepted again. */
  ghost predicate RetryDue(c: Settings, s: Store, j: Job, retry: bool) {
    retry && j.retryCount < j.maxRetries && HasRoom(c, s, j.tenant) && c.ttl >= 0.0
  }

  /** Back in its lane, as it is retried. */
  ghost predicate Retried(c: Settings, s: Store, t: Store, j: Job, now: real) {
    && SameDead(s, t)
    && exists k: Job :: Joins(s, t, k) && Corrected(j.priority, k.priority)
         && k == j.(status := Queued, retryCount := j.retryCount + 1, error := None, expiresAt := Some(now + c.ttl), priority := k.priority)
  }

  /** Among the dead letters; what the worker reported is kept, and the retries as they were, unless a retry was tried. */
  ghost predicate GivenUp(s: Store, t: Store, j: Job, error: Option<string>, now: real) {
    && SameLanes(s, t)
    && exists k: Job :: Buries(s, t, k)
         && k == j.(status := DeadLetter, completedAt := Some(now), error := error,
                    retryCount := k.retryCount, expiresAt := k.expiresAt, priority := k.priority)
         && (error.Some? ==> k.retryCount == j.retryCount && k.expiresAt == j.expiresAt && k.priority == j.priority)
         && (error.None? ==> k.retryCount == j.retryCount + 1)
  }

  lemma BuryBuries(s: Store, j: Job)
    ensures var t := Bury(s, j); Buries(s, t, j) && t.queues == s.queues && t.processing == s.processing && t.completed == s.completed
  {
  }

  /**
   A failed job goes back to the end of its lane, with one more retry and a fresh TTL, exactly when
   a retry is due; otherwise it is buried as a dead letter. Either way it no longer runs.
   */
  lemma FailureFate(c: Settings, s: Store, id: string, error: string, retry: bool, now: real)
    requires id in s.processing
    ensures var r, j := Fail(c, s, id, error, retry, now), s.processing[id];
            && r.ok && r.store.processing == s.processing - {id} && r.store.completed == s.completed
            && (if RetryDue(c, s, j, retry) then Retried(c, s, r.store, j, now)
                else GivenUp(s, r.store, j, if retry && j.retryCount < j.maxRetries then None else Some(error), now))
  {
    hide TotalQueued, Enqueue, Bury, Joins, Buries;
    var j := s.processing[id].(error := Some(error));
    var t := StopProcessing(s, id);
    assert SameLanes(s, t) && SameDead(s, t);
    assert HasRoom(c, s, j.tenant) == HasRoom(c, t, j.tenant) by { SameQueuesSameRoom(c, s, t, j.tenant); }
    if retry && j.retryCount < j.maxRetries {
      var k := ForRetry(c, j, now);
      SubmissionFate(c, t, k, now);
      var a := Enqueue(c, t, k, now);
      if a.accepted {
        JoinsFrom(s, t, a.store, a.job);
        JoinsAlike(s, a.store, Fail(c, s, id, error, retry, now).store, a.job);
      } else {
        BuryBuries(a.store, Died(a.job, now));
        BuriesAlike(a.store, Bury(a.store, Died(a.job, now)), s, Fail(c, s, id, error, retry, now).store, Died(a.job, now));
      }
    } else {
      BuryBuries(t, Died(j, now));
      BuriesAlike(t, Bury(t, Died(j, now)), s, Fail(c, s, id, error, retry, now).store, Died(j, now));
    }
  }

  lemma SameQueuesSameRoom(c: Settings, s: Store, t: Store, tenant: string)
    requires s.queues == t.queues
    ensures HasRoom(c, s, tenant) == HasRoom(c, t, tenant)
  {
  }

  lemma BuriesAlike(s: Store, t: Store, u: Store, v: Store, j: Job)
    requires Buries(s, t, j) && u.dead == s.dead && v.dead == t.dead
    ensures Buries(u, v, j)
  {
  }

  /** A job that does not run cannot fail or finish. */
  lemma OnlyRunningJobs(c: Settings, s: Store, id: string, error: string, retry: bool, result: string, now: real)
    requires id !in s.processing
    ensures Fail(c, s, id, error, retry, now) == Reply(s, false) && Complete(s, id, result, now) == Reply(s, false)
  {
  }

  /**
   A direct requeue by a client: the job is back in its lane exactly if there is room and the TTL is
   not negative. Otherwise it is in no container any more, unlike after a failure.
   */
  lemma RequeueFate(c: Settings, s: Store, failed: Job, now: real)
    requires failed.id !in s.processing
    ensures var a := Enqueue(c, s, ForRetry(c, failed, now), now);
            && (a.accepted <==> HasRoom(c, s, failed.tenant) && c.ttl >= 0.0)
            && (if a.accepted then Retried(c, s, a.store, failed, now)
                else SameLanes(s, a.store) && a.store.dead == s.dead && a.store.processing == s.processing && a.store.completed == s.completed)
  {
    hide TotalQueued, Enqueue, Joins;
    SubmissionFate(c, s, ForRetry(c, failed, now), now);
  }

  // --- completion -----------------------------------------------------------------------------

  /** A finished job is kept with its result; results past their expiry are dropped, its own included. */
  lemma CompletionFate(s: Store, id: string, result: string, now: real)
    requires id in s.processing && s.processing[id].id == id
    ensures var r := Complete(s, id, result, now);
            var all := s.completed[id := s.processing[id].(status := Completed, completedAt := Some(now), result := Some(result))];
            && r.ok && r.store.processing == s.processing - {id} && r.store.queues == s.queues && r.store.dead == s.dead
            && (forall x :: x in r.store.completed <==> x in all && (all[x].expiresAt.None? || all[x].expiresAt.value >= now))
            && forall x :: x in r.store.completed ==> r.store.completed[x] == all[x]
  {
  }

  // --- cancellation -----------------------------------------------------------------------------

  /** Buried as cancelled. */
  ghost predicate CalledOff(s: Store, t: Store, j: Job, now: real) {
    Buries(s, t, j.(status := Cancelled, completedAt := Some(now)))
  }

  /** The job is taken out of its lane, and the others keep their order. */
  ghost predicate Leaves(s: Store, t: Store, key: string, p: Priority, i: nat)
    requires i < |LanesAt(s.queues, key).Get(p)|
  {
    forall other, q :: LanesAt(t.queues, other).Get(q)
      == if other == key && q == p then LanesAt(s.queues, key).Get(p)[..i] + LanesAt(s.queues, key).Get(p)[i + 1..] else LanesAt(s.queues, other).Get(q)
  }

  lemma {:induction false} FoundWhereItIs(s: Store, order: seq<string>, id: string)
    requires exists key :: key in order && exists p, j :: j in LanesAt(s.queues, key).Get(p) && j.id == id
    ensures FindQueued(s, order, id).Some?
  {
    hide FindInLanes;
    var key :| key in order && exists p, j :: j in LanesAt(s.queues, key).Get(p) && j.id == id;
    if order[0] == key {
      FoundInLanes(LanesAt(s.queues, key), key, id);
    } else {
      assert key in order[1..];
      if FindInLanes(LanesAt(s.queues, order[0]), order[0], 0, id).None? {
        FoundWhereItIs(s, order[1..], id);
      }
    }
  }

  lemma FoundInLanes(lanes: Lanes, key: string, id: string)
    requires exists p, j :: j in lanes.Get(p) && j.id == id
    ensures FindInLanes(lanes, key, 0, id).Some?
  {
    IndexOfFound(lanes.low, id);
    IndexOfFound(lanes.normal, id);
    IndexOfFound(lanes.high, id);
    IndexOfFound(lanes.critical, id);
    var p, j :| j in lanes.Get(p) && j.id == id;
    var i :| 0 <= i < |lanes.Get(p)| && lanes.Get(p)[i] == j;
    assert FindInLanes(lanes, key, 4, id) == None;
    assert lanes.Get(ASCENDING[0]) == lanes.low && lanes.Get(ASCENDING[1]) == lanes.normal
        && lanes.Get(ASCENDING[2]) == lanes.high && lanes.Get(ASCENDING[3]) == lanes.critical;
    match p
    case Low => assert FindInLanes(lanes, key, 0, id).Some?;
    case Normal => assert FindInLanes(lanes, key, 1, id).Some?;
    case High => assert FindInLanes(lanes, key, 2, id).Some?;
    case Critical => assert FindInLanes(lanes, key, 3, id).Some?;
  }

  lemma NothingQueued(s: Store, order: seq<string>, id: string)
    requires forall key, p, j :: j in LanesAt(s.queues, key).Get(p) ==> j.id != id
    ensures FindQueued(s, order, id).None?
  {
    FindQueuedChooses(s, order, id);
  }

  /** Whatever runs, is queued or is finished is cancelled; nothing else is. */
  lemma CancellationFate(s: Store, id: string, now: real)
    requires Placed(s)
    ensures var r := Cancel(s, id, now);
            if id in s.processing then
              r.ok && CalledOff(s, r.store, s.processing[id], now) && r.store.processing == s.processing - {id}
              && r.store.queues == s.queues && r.store.completed == s.completed
            else if id in s.log.place && s.log.place[id].InLane? then
              && r.ok && r.store.processing == s.processing && r.store.completed == s.completed
              && exists key, p, i :: 0 <= i < |LanesAt(s.queues, key).Get(p)| && LanesAt(s.queues, key).Get(p)[i].id == id
                   && CalledOff(s, r.store, LanesAt(s.queues, key).Get(p)[i], now) && Leaves(s, r.store, key, p, i)
            else if id in s.completed then
              r.ok && CalledOff(s, r.store, s.completed[id], now) && r.store.completed == s.completed - {id}
              && r.store.queues == s.queues && r.store.processing == s.processing
            else r == Reply(s, false)
  {
    hide Bury, Withdraw, FindQueued, Buries;
    var queued := FindQueued(s, s.queues.keys, id);
    FindQueuedChooses(s, s.queues.keys, id);
    QueuedIffPlaced(s, id);
    var t := Cancel(s, id, now).store;
    if id in s.processing {
      var u := StopProcessing(s, id);
      BuryBuries(u, Void(s.processing[id], now));
      BuriesAlike(u, Bury(u, Void(s.processing[id], now)), s, t, Void(s.processing[id], now));
    } else if queued.Some? {
      var c := queued.value;
      var j := LanesAt(s.queues, c.key).Get(c.level)[c.index];
      var u := Withdraw(s, c.key, c.level, c.index);
      WithdrawLeaves(s, c.key, c.level, c.index);
      BuryBuries(u, Void(j, now));
      BuriesAlike(u, Bury(u, Void(j, now)), s, t, Void(j, now));
      LeavesAlike(s, u, t, c.key, c.level, c.index);
    } else if id in s.completed {
      var u := Uncomplete(s, id);
      BuryBuries(u, Void(s.completed[id], now));
      BuriesAlike(u, Bury(u, Void(s.completed[id], now)), s, t, Void(s.completed[id], now));
    }
  }

  lemma WithdrawLeaves(s: Store, key: string, p: Priority, i: nat)
    requires i < |LanesAt(s.queues, key).Get(p)|
    ensures var t := Withdraw(s, key, p, i);
            Leaves(s, t, key, p, i) && t.dead == s.dead && t.processing == s.processing && t.completed == s.completed
  {
    var lane := LanesAt(s.queues, key).Get(p);
    forall other, q
      ensures LanesAt(Withdraw(s, key, p, i).queues, other).Get(q)
           == if other == key && q == p then lane[..i] + lane[i + 1..] else LanesAt(s.queues, other).Get(q)
    {
      LookupPut(s.queues, key, p, Without(lane, i), other, q);
    }
  }

  lemma LeavesAlike(s: Store, u: Store, t: Store, key: string, p: Priority, i: nat)
    requires i < |LanesAt(s.queues, key).Get(p)| && Leaves(s, u, key, p, i) && t.queues == u.queues
    ensures Leaves(s, t, key, p, i)
  {
  }

  lemma QueuedIffPlaced(s: Store, id: string)
    requires Placed(s)
    ensures FindQueued(s, s.queues.keys, id).Some? <==> id in s.log.place && s.log.place[id].InLane?
  {
    hide FindQueued;
    if id in s.log.place && s.log.place[id].InLane? {
      var key, p := s.log.place[id].tenant, s.log.place[id].level;
      assert LaneOk(LanesAt(s.queues, key).Get(p), s.log.place, key, p);
      assert id in Ids(LanesAt(s.queues, key).Get(p));
      var j :| j in LanesAt(s.queues, key).Get(p) && j.id == id;
      assert s.queues.Has(key);
      FoundWhereItIs(s, s.queues.keys, id);
    } else {
      forall key, p, j | j in LanesAt(s.queues, key).Get(p)
        ensures j.id != id
      {
        assert LaneOk(LanesAt(s.queues, key).Get(p), s.log.place, key, p);
      }
      NothingQueued(s, s.queues.keys, id);
    }
  }

  // --- handing out ------------------------------------------------------------------------------

  /** What a worker is given: the job as it was queued, running since now, with one more attempt. */
  lemma BegunNow(offer: seq<Job>, now: real, i: nat)
    requires i < |offer|
    ensures |BegunAll(offer, now)| == |offer|
    ensures BegunAll(offer, now)[i] == offer[i].(status := Processing, startedAt := Some(now), attempts := offer[i].attempts + [now])
  {
    BegunAllLength(offer, now);
    if i > 0 {
      BegunNow(offer[1..], now, i - 1);
    }
  }

  /** The jobs given out are among the running ones, just as they were given; everything else stays as it was. */
  ghost predicate GivenOut(s: Store, jobs: seq<Job>, t: Store) {
    && (forall i :: 0 <= i < |jobs| ==> jobs[i].id in t.processing && t.processing[jobs[i].id] == jobs[i])
    && (forall id :: id in s.processing ==> id in t.processing && t.processing[id] == s.processing[id])
    && (forall id :: id in t.processing ==> id in s.processing || exists i :: 0 <= i < |jobs| && jobs[i].id == id)
    && t.completed == s.completed && t.dead == s.dead
  }

  lemma OneMoreGiven(s: Store, j: Job, u: Store, jobs: seq<Job>, t: Store)
    requires j.id !in s.processing && u.processing == s.processing[j.id := j] && u.completed == s.completed && u.dead == s.dead
    requires GivenOut(u, jobs, t)
    ensures GivenOut(s, [j] + jobs, t)
  {
    var all := [j] + jobs;
    forall i | 0 <= i < |all|
      ensures all[i].id in t.processing && t.processing[all[i].id] == all[i]
    {
      assert i > 0 ==> all[i] == jobs[i - 1];
    }
    forall id | id in t.processing && id !in s.processing
      ensures exists i :: 0 <= i < |all| && all[i].id == id
    {
      if id in u.processing {
        assert all[0].id == id;
      } else {
        var i :| 0 <= i < |jobs| && jobs[i].id == id;
        assert all[i + 1].id == id;
      }
    }
  }

  lemma {:induction false} HandedOutAreRunning(c: Settings, s: Store, order: seq<string>, types: seq<string>, max: nat, now: real)
    requires Good(c, s)
    ensures GivenOut(s, Dequeue(s, order, types, max, now).jobs, Dequeue(s, order, types, max, now).store)
    decreases max
  {
    hide Good, ScanTenants, Claim, Begun, GivenOut;
    if max > 0 {
      var scan := ScanTenants(s, order, types, now);
      ScanChooses(s, order, types, now);
      ScanLeavesTheRest(c, s, order, types, now);
      if scan.choice.Some? {
        var choice := scan.choice.value;
        var j := Begun(LanesAt(scan.store.queues, choice.key).Get(choice.level)[choice.index], now);
        var u := Claim(scan.store, choice, now);
        ClaimStarts(c, scan.store, choice, now);
        HandedOutAreRunning(c, u, order, types, max - 1, now);
        OneMoreGiven(s, j, u, Dequeue(u, order, types, max - 1, now).jobs, Dequeue(u, order, types, max - 1, now).store);
      } else {
        NoneGiven(s, scan.store);
      }
    } else {
      NoneGiven(s, s);
    }
  }

  lemma NoneGiven(s: Store, t: Store)
    requires t.processing == s.processing && t.completed == s.completed && t.dead == s.dead
    ensures GivenOut(s, [], t)
  {
  }

  lemma ScanLeavesTheRest(c: Settings, s: Store, order: seq<string>, types: seq<string>, now: real)
    requires Good(c, s)
    ensures var t := ScanTenants(s, order, types, now).store;
            Good(c, t) && t.processing == s.processing && t.completed == s.completed && t.dead == s.dead
  {
    hide Placed, Audited, Bounded, Landed, ScanTenants;
    ScanPurges(c, s, order, types, now);
    PurgedIsGood(c, s, ScanTenants(s, order, types, now).store);
  }

  lemma ClaimStarts(c: Settings, s: Store, choice: Choice, now: real)
    requires Good(c, s) && Chosen(s, choice)
    ensures var t, j := Claim(s, choice, now), LanesAt(s.queues, choice.key).Get(choice.level)[choice.index];
            && Good(c, t) && j.id !in s.processing && Begun(j, now).id == j.id
            && t.processing == s.processing[j.id := Begun(j, now)] && t.completed == s.completed && t.dead == s.dead
  {
    hide Audited, Bounded, LaneOk, Buried;
    ClaimKeeps(c, s, choice, now);
    WithdrawKeeps(s, choice.key, choice.level, choice.index);
  }
}
