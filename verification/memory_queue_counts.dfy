/**
 The books of the in-memory queue: what every move does to the sizes of the containers and to
 the work outstanding, the weighted sum over live jobs that every effective call lowers.
 */
module QueueCounts {
  import opened Dictionaries
  import opened MemoryQueue
  import opened QueuePlaces

  /** What a job may still cost: two moves for every retry it has left, and a few for this attempt. */
  function Weight(j: Job, extra: nat): nat {
    extra + 2 * (if Cap(j) >= j.retryCount then Cap(j) - j.retryCount else 0)
  }

  function QueuedWeight(j: Job): nat { Weight(j, 3) }

  function RunningWeight(j: Job): nat { Weight(j, 2) }

  function LaneWeight(jobs: seq<Job>): nat {
    if jobs == [] then 0 else LaneWeight(jobs[..|jobs| - 1]) + QueuedWeight(jobs[|jobs| - 1])
  }

  function LanesWeight(l: Lanes): nat {
    LaneWeight(l.low) + LaneWeight(l.normal) + LaneWeight(l.high) + LaneWeight(l.critical)
  }

  function DeadTotal(s: Store): nat {
    Sum(s.dead, Length)
  }

  ghost function Work(s: Store): nat {
    Sum(s.queues, LanesWeight) + MapSum(s.processing, RunningWeight) + |s.completed|
  }

  lemma {:induction false} WeightOfConcatenation(a: seq<Job>, b: seq<Job>)
    ensures LaneWeight(a + b) == LaneWeight(a) + LaneWeight(b)
  {
    if b == [] {
      assert a + b == a;
    } else {
      var n := |b| - 1;
      assert (a + b)[..|a + b| - 1] == a + b[..n];
      WeightOfConcatenation(a, b[..n]);
    }
  }

  lemma WeightWithout(jobs: seq<Job>, i: nat)
    requires i < |jobs|
    ensures LaneWeight(Without(jobs, i)) + QueuedWeight(jobs[i]) == LaneWeight(jobs)
  {
    hide LaneWeight, QueuedWeight;
    assert jobs == jobs[..i] + [jobs[i]] + jobs[i + 1..];
    WeightOfConcatenation(jobs[..i] + [jobs[i]], jobs[i + 1..]);
    WeightOfConcatenation(jobs[..i], [jobs[i]]);
    WeightOfConcatenation(jobs[..i], jobs[i + 1..]);
    OneJobWeight(jobs[i]);
  }

  lemma {:induction false} WeightUnexpired(jobs: seq<Job>, now: real)
    ensures LaneWeight(Unexpired(jobs, now)) + 3 * Dropped(jobs, now) <= LaneWeight(jobs)
    ensures |Unexpired(jobs, now)| + Dropped(jobs, now) == |jobs|
  {
    if jobs != [] {
      var n := |jobs| - 1;
      WeightUnexpired(jobs[..n], now);
      WeightOfConcatenation(Unexpired(jobs[..n], now), [jobs[n]]);
      OneJobWeight(jobs[n]);
      assert Unexpired(jobs[..n], now) + [] == Unexpired(jobs[..n], now);
    }
  }

  lemma NoWeight()
    ensures LaneWeight([]) == 0
  {
  }

  /** Changing one lane. */
  lemma SetLaneCounts(s: Store, key: string, p: Priority, jobs: seq<Job>)
    requires s.queues.Ok()
    ensures var t := SetLane(s, key, p, jobs);
            && t.queues.Ok()
            && TotalQueued(t) + |LanesAt(s.queues, key).Get(p)| == TotalQueued(s) + |jobs|
            && Sum(t.queues, LanesWeight) + LaneWeight(LanesAt(s.queues, key).Get(p)) == Sum(s.queues, LanesWeight) + LaneWeight(jobs)
  {
    var lanes := LanesAt(s.queues, key);
    SumPut(s.queues, key, lanes.Put(p, jobs), Size);
    SumPut(s.queues, key, lanes.Put(p, jobs), LanesWeight);
    NoWeight();
  }

  lemma AppendCounts(s: Store, j: Job)
    requires s.queues.Ok()
    ensures var t := Append(s, j);
            TotalQueued(t) == TotalQueued(s) + 1 && Work(t) == Work(s) + QueuedWeight(j) && t.dead == s.dead
  {
    hide LaneWeight, QueuedWeight;
    var key, p := KeyOf(j.tenant), Level(j.priority);
    var lane := LanesAt(s.queues, key).Get(p);
    SetLaneCounts(s, key, p, lane + [j]);
    WeightOfConcatenation(lane, [j]);
    OneJobWeight(j);
  }

  lemma OneJobWeight(j: Job)
    ensures LaneWeight([j]) == QueuedWeight(j)
  {
    assert [j][..0] == [];
  }

  lemma WithdrawCounts(s: Store, key: string, p: Priority, i: nat)
    requires s.queues.Ok() && i < |LanesAt(s.queues, key).Get(p)|
    ensures var t := Withdraw(s, key, p, i);
            && TotalQueued(t) + 1 == TotalQueued(s)
            && Work(t) + QueuedWeight(LanesAt(s.queues, key).Get(p)[i]) == Work(s)
  {
    hide LaneWeight, QueuedWeight;
    var lane := LanesAt(s.queues, key).Get(p);
    SetLaneCounts(s, key, p, Without(lane, i));
    WeightWithout(lane, i);
  }

  lemma PurgeCounts(s: Store, key: string, p: Priority, now: real)
    requires s.queues.Ok()
    ensures var t := Purge(s, key, p, now);
            && t.queues.Ok()
            && TotalQueued(t) + t.stats.expired == TotalQueued(s) + s.stats.expired
            && Work(t) + t.stats.expired <= Work(s) + s.stats.expired
  {
    hide LaneWeight, QueuedWeight, Unexpired, Dropped, Overdue;
    var lane := LanesAt(s.queues, key).Get(p);
    SetLaneCounts(s, key, p, Unexpired(lane, now));
    WeightUnexpired(lane, now);
  }

  lemma WithTenantCounts(s: Store, key: string)
    requires s.queues.Ok()
    ensures var t := WithTenant(s, key);
            && t.queues.Ok() && TotalQueued(t) == TotalQueued(s) && Work(t) == Work(s)
  {
    hide LaneWeight;
    SumPut(s.queues, key, LanesAt(s.queues, key), Size);
    SumPut(s.queues, key, LanesAt(s.queues, key), LanesWeight);
    NoWeight();
  }

  lemma StartCounts(s: Store, j: Job)
    requires j.id !in s.processing
    ensures var t := Start(s, j);
            |t.processing| == |s.processing| + 1 && Work(t) == Work(s) + RunningWeight(j)
  {
    MapSumPut(s.processing, j.id, j, RunningWeight);
  }

  lemma StopCounts(s: Store, id: string)
    requires id in s.processing
    ensures var t := StopProcessing(s, id);
            |t.processing| + 1 == |s.processing| && Work(t) + RunningWeight(s.processing[id]) == Work(s)
  {
    MapSumRemove(s.processing, id, RunningWeight);
    SizeWithout(s.processing, id);
  }

  lemma SizeWithout(m: map<string, Job>, id: string)
    requires id in m
    ensures |m - {id}| + 1 == |m|
  {
    assert m == (m - {id})[id := m[id]];
  }

  lemma KeepCounts(s: Store, j: Job)
    requires j.id !in s.completed
    ensures |Keep(s, j).completed| == |s.completed| + 1 && Work(Keep(s, j)) == Work(s) + 1
  {
  }

  lemma UncompleteCounts(s: Store, id: string)
    requires id in s.completed
    ensures |Uncomplete(s, id).completed| + 1 == |s.completed| && Work(Uncomplete(s, id)) + 1 == Work(s)
  {
    SizeWithout(s.completed, id);
  }

  lemma {:induction false} SizeWithoutSet(m: map<string, Job>, ids: set<string>)
    requires forall id :: id in ids ==> id in m
    ensures |m - ids| + |ids| == |m|
  {
    if ids == {} {
      assert m - ids == m;
    } else {
      var id :| id in ids;
      SizeWithoutSet(m, ids - {id});
      SizeWithout(m - (ids - {id}), id);
      assert m - (ids - {id}) - {id} == m - ids;
    }
  }

  lemma PruneCounts(s: Store, now: real)
    ensures var t := Prune(s, now);
            && |t.completed| + t.log.pruned == |s.completed| + s.log.pruned
            && Work(t) + t.log.pruned == Work(s) + s.log.pruned
  {
    StaleAreCompleted(s.completed, now);
    SizeWithoutSet(s.completed, StaleIds(s.completed, now));
  }

  lemma BuryCounts(s: Store, j: Job)
    requires s.dead.Ok()
    ensures DeadTotal(Bury(s, j)) == DeadTotal(s) + 1 && Work(Bury(s, j)) == Work(s)
  {
    hide LaneWeight, LanesWeight, RunningWeight;
    SumPut(s.dead, KeyOf(j.tenant), DeadAt(s.dead, KeyOf(j.tenant)) + [j], Length);
  }
}
