/**
 `InMemoryQueueBackend` in its own form: dictionaries and lists updated in place by loops. Every
 method refines the corresponding function of `MemoryQueue`, for which the other modules prove
 what a client may rely on.
 */
module InMemoryBackend {
  import opened Wrappers
  import opened Dictionaries
  import opened Jobs
  import M = MemoryQueue
  import opened MemoryQueue

  lemma Ahead(jobs: seq<Job>, i: nat, lane: seq<Job>, seen: nat)
    requires i < |jobs| && seen < |lane| && jobs[i..] == lane[seen..]
    ensures jobs[i] == lane[seen] && jobs[i + 1..] == lane[seen + 1..]
    ensures (jobs[..i] + jobs[i + 1..])[..i] == jobs[..i] && (jobs[..i] + jobs[i + 1..])[i..] == lane[seen + 1..]
    ensures jobs[..i + 1] == jobs[..i] + [lane[seen]]
  {
    assert jobs[i] == jobs[i..][0];
    assert jobs[i + 1..] == jobs[i..][1..];
  }

  lemma NoneSeen(lane: seq<Job>, now: real)
    ensures Unexpired(lane[..0], now) == [] && Dropped(lane[..0], now) == 0
  {
  }

  lemma OneSeen(lane: seq<Job>, seen: nat, now: real)
    requires seen < |lane|
    ensures Unexpired(lane[..seen + 1], now) == Unexpired(lane[..seen], now) + if Expired(lane[seen], now) then [] else [lane[seen]]
    ensures Dropped(lane[..seen + 1], now) == Dropped(lane[..seen], now) + if Expired(lane[seen], now) then 1 else 0
  {
    assert lane[..seen + 1][..seen] == lane[..seen];
  }

  class InMemoryQueue {
    const c: Settings

    var queues: Dict<string, Lanes>
    var processing: map<string, Job>
    var deadLetter: Dict<string, seq<Job>>
    var completed: map<string, Job>
    var stats: Stats
    ghost var log: History

    ghost function View(): Store
      reads this
    {
      Store(queues, processing, deadLetter, completed, stats, log)
    }

    /** Running jobs are listed under their own ids. */
    ghost predicate Valid()
      reads this`processing
    {
      forall id :: id in processing ==> processing[id].id == id
    }

    constructor (c: Settings)
      ensures Valid()
      ensures this.c == c && View() == New()
    {
      this.c := c;
      queues, processing, deadLetter, completed := Empty(), map[], Empty(), map[];
      stats := Stats(0, 0, 0, 0, 0, 0, 0, 0);
      log := History(map[], 0, 0, 0, 0, 0, 0);
    }

    /** `_get_queue`. */
    method GetQueue(key: string) returns (lanes: Lanes)
      modifies this`queues
      ensures View() == WithTenant(old(View()), key) && lanes == LanesAt(queues, key)
    {
      if !queues.Has(key) {
        queues := queues.Put(key, NO_LANES);
      } else {
        assert queues.items == queues.items[key := queues.items[key]];
      }
      lanes := queues.Get(key);
    }

    /** `_total_queued` over every tenant. */
    method CountAll() returns (n: nat)
      ensures n == TotalQueued(View())
    {
      n := 0;
      for i := 0 to |queues.keys|
        invariant n == SumOf(queues.keys[..i], queues.items, Size)
      {
        assert queues.keys[..i + 1][..i] == queues.keys[..i];
        var lanes := LanesAt(queues, queues.keys[i]);
        n := n + |lanes.low| + |lanes.normal| + |lanes.high| + |lanes.critical|;
      }
      assert queues.keys[..|queues.keys|] == queues.keys;
    }

    /** `_total_queued`: a named tenant's lanes are created by the count. */
    method CountQueued(tenant: string) returns (n: nat)
      modifies this`queues
      ensures View() == (if tenant != "" then WithTenant(old(View()), tenant) else old(View()))
      ensures n == Load(old(View()), tenant)
    {
      if tenant != "" {
        var lanes := GetQueue(tenant);
        n := |lanes.low| + |lanes.normal| + |lanes.high| + |lanes.critical|;
      } else {
        n := CountAll();
      }
    }

    /** `enqueue`; the job comes back as the caller's object is left. */
    method Enqueue(submitted: Job, now: real) returns (accepted: bool, job: Job)
      modifies this`queues, this`stats, this`log
      ensures var a := M.Enqueue(c, old(View()), submitted, now);
              View() == a.store && accepted == a.accepted && job == a.job
    {
      hide TotalQueued, Load;
      job := submitted;
      if job.expiresAt.None? {
        job := job.(expiresAt := Some(now + c.ttl));
      }
      if Expired(job, now) {
        return false, job;
      }
      job := job.(priority := Value(Level(job.priority)));
      var queued := CountQueued(job.tenant);
      if queued >= c.maxSize {
        stats := stats.(rejectedFull := stats.rejectedFull + 1);
        return false, job;
      }
      AppendTo(job);
      stats := stats.(enqueued := stats.enqueued + 1);
      accepted := true;
    }

    method AppendTo(job: Job)
      modifies this`queues, this`log
      ensures View() == M.Append(old(View()), job)
    {
      var key, p := KeyOf(job.tenant), Level(job.priority);
      var lanes := GetQueue(key);
      queues := queues.Put(key, lanes.Put(p, lanes.Get(p) + [job]));
      log := log.(place := log.place[job.id := InLane(key, p)]);
      assert queues == M.Append(old(View()), job).queues by {
        assert WithTenant(old(View()), key).queues.Put(key, lanes.Put(p, lanes.Get(p) + [job]))
            == old(queues).Put(key, lanes.Put(p, lanes.Get(p) + [job]));
      }
    }

    /** The purge of one lane: the index does not advance past a removal. */
    method PurgeLane(key: string, p: Priority, now: real)
      modifies this`queues, this`stats, this`log
      ensures View() == M.Purge(old(View()), key, p, now)
    {
      hide Overdue, Unexpired, Dropped, Expired;
      var lane := LanesAt(queues, key).Get(p);
      var jobs, i := lane, 0;
      ghost var seen := 0;
      NoneSeen(lane, now);
      while i < |jobs|
        invariant i <= |jobs| && seen <= |lane| && |jobs| - i == |lane| - seen
        invariant jobs[..i] == Unexpired(lane[..seen], now)
        invariant jobs[i..] == lane[seen..]
        invariant stats == old(stats).(expired := old(stats).expired + Dropped(lane[..seen], now))
        decreases |jobs| - i
        modifies this`stats
      {
        Ahead(jobs, i, lane, seen);
        OneSeen(lane, seen, now);
        if Expired(jobs[i], now) {
          jobs := jobs[..i] + jobs[i + 1..];
          stats := stats.(expired := stats.expired + 1);
        } else {
          i := i + 1;
        }
        seen := seen + 1;
      }
      assert jobs[..i] == jobs && lane[..seen] == lane;
      queues := queues.Put(key, LanesAt(queues, key).Put(p, jobs));
      log := log.(place := log.place + map id | id in Overdue(lane, now) :: TimedOut);
    }

    /** The first job of a lane that a worker for `types` may take. */
    method FindMatch(jobs: seq<Job>, types: seq<string>) returns (i: nat)
      ensures i == FirstMatch(jobs, types)
    {
      i := 0;
      while i < |jobs| && !(types == [] || jobs[i].kind in types)
        invariant i <= |jobs| && FirstMatch(jobs, types) == i + FirstMatch(jobs[i..], types)
      {
        i := i + 1;
      }
    }

    /** One tenant's lanes, most urgent first. */
    method ScanTenant(key: string, types: seq<string>, now: real) returns (choice: Option<Choice>)
      modifies this`queues, this`stats, this`log
      ensures Scan(View(), choice) == M.ScanLanes(old(View()), key, 0, types, now)
    {
      hide Purge, FirstMatch;
      choice := None;
      var k := 0;
      while k < 4
        invariant 0 <= k <= 4 && choice.None?
        invariant M.ScanLanes(View(), key, k, types, now) == M.ScanLanes(old(View()), key, 0, types, now)
      {
        PurgeLane(key, LEVELS[k], now);
        var lane := LanesAt(queues, key).Get(LEVELS[k]);
        var i := FindMatch(lane, types);
        if i < |lane| {
          choice := Some(Choice(key, LEVELS[k], i));
          return;
        }
        k := k + 1;
      }
    }

    /** The tenants in the order in which their set is iterated, up to the first with a match. */
    method FindJob(order: seq<string>, types: seq<string>, now: real) returns (choice: Option<Choice>)
      modifies this`queues, this`stats, this`log
      ensures Scan(View(), choice) == ScanTenants(old(View()), order, types, now)
      ensures choice.Some? ==> Chosen(View(), choice.value)
    {
      hide M.ScanLanes, WithTenant;
      choice := None;
      var t := 0;
      ScanChooses(View(), order, types, now);
      while t < |order|
        invariant 0 <= t <= |order| && choice.None?
        invariant ScanTenants(View(), order[t..], types, now) == ScanTenants(old(View()), order, types, now)
      {
        assert order[t..][1..] == order[t + 1..];
        var lanes := GetQueue(order[t]);
        choice := ScanTenant(order[t], types, now);
        if choice.Some? {
          return;
        }
        t := t + 1;
      }
    }

    /** `queue[best_priority].remove(best_job)`. */
    method TakeFromLane(choice: Choice) returns (job: Job)
      requires Chosen(View(), choice)
      modifies this`queues, this`log
      ensures View() == Withdraw(old(View()), choice.key, choice.level, choice.index)
      ensures job == old(LanesAt(queues, choice.key).Get(choice.level)[choice.index])
    {
      var lane := LanesAt(queues, choice.key).Get(choice.level);
      job := lane[choice.index];
      queues := queues.Put(choice.key, LanesAt(queues, choice.key).Put(choice.level, lane[..choice.index] + lane[choice.index + 1..]));
      log := log.(place := log.place[job.id := Held]);
    }

    method ClaimJob(choice: Choice, now: real) returns (job: Job)
      requires Valid() && Chosen(View(), choice)
      modifies this
      ensures Valid()
      ensures View() == Claim(old(View()), choice, now)
      ensures job == Begun(old(LanesAt(queues, choice.key).Get(choice.level)[choice.index]), now)
    {
      hide Withdraw;
      job := TakeFromLane(choice);
      job := job.(status := Processing, startedAt := Some(now), attempts := job.attempts + [now]);
      processing := processing[job.id := job];
      stats := stats.(dequeued := stats.dequeued + 1);
      log := log.(place := log.place[job.id := InProcessing]);
    }

    /** `dequeue`. */
    method Dequeue(order: seq<string>, types: seq<string>, max: nat, now: real) returns (jobs: seq<Job>)
      requires Valid()
      modifies this
      ensures Valid()
      ensures Taken(View(), jobs) == M.Dequeue(old(View()), order, types, max, now)
    {
      hide ScanTenants, Claim, Begun;
      jobs := [];
      for taken := 0 to max
        invariant Valid()
        invariant M.Dequeue(old(View()), order, types, max, now)
               == Taken(M.Dequeue(View(), order, types, max - taken, now).store,
                        jobs + M.Dequeue(View(), order, types, max - taken, now).jobs)
      {
        var choice := FindJob(order, types, now);
        if choice.None? {
          return;
        }
        var job := ClaimJob(choice.value, now);
        jobs := jobs + [job];
      }
    }

    /** `requeue`. */
    method Requeue(failed: Job, now: real) returns (accepted: bool, job: Job)
      ensures processing == old(processing) - {failed.id}
      modifies this`queues, this`processing, this`stats, this`log
      ensures var a := M.Enqueue(c, old(View()).(processing := old(processing) - {failed.id}), ForRetry(c, failed, now), now);
              View() == a.store && accepted == a.accepted && job == a.job
    {
      hide M.Enqueue;
      job := failed.(status := Queued, retryCount := failed.retryCount + 1, error := None, expiresAt := Some(now + c.ttl));
      processing := processing - {failed.id};
      accepted, job := Enqueue(job, now);
    }

    /** `complete`. */
    method Complete(id: string, result: string, now: real) returns (ok: bool)
      requires Valid()
      modifies this
      ensures Valid()
      ensures Reply(View(), ok) == M.Complete(old(View()), id, result, now)
    {
      hide M.Prune;
      if id !in processing {
        return false;
      }
      var job := processing[id];
      processing := processing - {id};
      log := log.(place := log.place[id := Held]);
      job := job.(status := Completed, completedAt := Some(now), result := Some(result));
      completed := completed[job.id := job];
      log := log.(place := log.place[job.id := InCompleted]);
      stats := stats.(completed := stats.completed + 1);
      PruneCompleted(now);
      ok := true;
    }

    /** `_prune_completed`: the stale ids are collected first and then dropped one by one. */
    method PruneCompleted(now: real)
      modifies this`completed, this`log
      ensures View() == M.Prune(old(View()), now)
    {
      hide StaleIds;
      var stale := StaleIds(completed, now);
      log := log.(pruned := log.pruned + |stale|, place := log.place + map id | id in stale :: Pruned);
      var left := stale;
      while left != {}
        invariant left <= stale && completed == old(completed) - (stale - left)
        decreases |left|
        modifies this`completed
      {
        var id :| id in left;
        completed := completed - {id};
        left := left - {id};
      }
    }

    method Bury(job: Job)
      modifies this`deadLetter, this`log
      ensures View() == M.Bury(old(View()), job)
    {
      var key := KeyOf(job.tenant);
      if !deadLetter.Has(key) {
        deadLetter := deadLetter.Put(key, []);
      }
      deadLetter := deadLetter.Put(key, deadLetter.Get(key) + [job]);
      log := log.(place := log.place[job.id := InDead(key)]);
      assert deadLetter.items == old(deadLetter).items[key := DeadAt(old(deadLetter), key) + [job]];
    }

    /** `fail`. */
    method Fail(id: string, error: string, retry: bool, now: real) returns (ok: bool)
      requires Valid()
      modifies this
      ensures Valid()
      ensures Reply(View(), ok) == M.Fail(c, old(View()), id, error, retry, now)
    {
      hide M.Enqueue, M.Bury;
      if id !in processing {
        return false;
      }
      var job := processing[id];
      processing := processing - {id};
      log := log.(place := log.place[id := Held]);
      job := job.(error := Some(error));
      ok := true;
      if retry && job.retryCount < job.maxRetries {
        assert processing - {job.id} == processing;
        var requeued;
        requeued, job := Requeue(job, now);
        if requeued {
          log := log.(retried := log.retried + 1);
          return;
        }
      }
      job := job.(status := DeadLetter, completedAt := Some(now));
      Bury(job);
      stats := stats.(failed := stats.failed + 1, deadLettered := stats.deadLettered + 1);
    }

    method FindId(jobs: seq<Job>, id: string) returns (i: nat)
      ensures i == IndexOf(jobs, id)
    {
      i := 0;
      while i < |jobs| && jobs[i].id != id
        invariant i <= |jobs| && IndexOf(jobs, id) == i + IndexOf(jobs[i..], id)
      {
        i := i + 1;
      }
    }

    /** The search of `cancel` through every lane of every tenant. */
    method FindLane(id: string) returns (choice: Option<Choice>)
      ensures choice == FindQueued(View(), queues.keys, id)
    {
      hide IndexOf, LanesAt;
      var keys := queues.keys;
      for t := 0 to |keys|
        invariant FindQueued(View(), keys, id) == FindQueued(View(), keys[t..], id)
      {
        assert keys[t..][1..] == keys[t + 1..];
        var lanes := LanesAt(queues, keys[t]);
        for k := 0 to 4
          invariant FindInLanes(lanes, keys[t], 0, id) == FindInLanes(lanes, keys[t], k, id)
        {
          var i := FindId(lanes.Get(ASCENDING[k]), id);
          if i < |lanes.Get(ASCENDING[k])| {
            return Some(Choice(keys[t], ASCENDING[k], i));
          }
        }
      }
      choice := None;
    }

    method SaveCancelled(job: Job, now: real)
      modifies this`deadLetter, this`stats, this`log
      ensures View() == CountCancelled(M.Bury(old(View()), Void(job, now)))
    {
      hide M.Bury;
      Bury(job.(status := Cancelled, completedAt := Some(now)));
      stats := stats.(cancelled := stats.cancelled + 1);
    }

    /** `cancel`. */
    method Cancel(id: string, now: real) returns (ok: bool)
      requires Valid()
      modifies this
      ensures Valid()
      ensures Reply(View(), ok) == M.Cancel(old(View()), id, now)
    {
      hide M.Bury, FindQueued, Withdraw, CountCancelled;
      ok := true;
      if id in processing {
        var job := processing[id];
        processing := processing - {id};
        log := log.(place := log.place[id := Held]);
        SaveCancelled(job, now);
        log := log.(cancelledRunning := log.cancelledRunning + 1);
        return;
      }
      var choice := FindLane(id);
      FindQueuedChooses(View(), queues.keys, id);
      if choice.Some? {
        var job := TakeFromLane(choice.value);
        SaveCancelled(job, now);
        log := log.(cancelledQueued := log.cancelledQueued + 1);
        return;
      }
      if id in completed {
        var job := completed[id];
        completed := completed - {id};
        log := log.(place := log.place[id := Held]);
        SaveCancelled(job, now);
        log := log.(cancelledDone := log.cancelledDone + 1);
        return;
      }
      ok := false;
    }
  }
}
