/**
 Job conservation: every accepted job is in exactly one container, or has left by expiry or
 pruning; its status, its retry count and its attempts are those of the container it is in.
 `place` says where each accepted job is; a container holds exactly the jobs placed in it.
 */
module QueuePlaces {
  import opened Dictionaries
  import opened Jobs
  import opened MemoryQueue

  function Cap(j: Job): nat { if j.maxRetries > 0 then j.maxRetries else 0 }

  ghost predicate QueuedJob(j: Job, key: string, p: Priority) {
    && j.status == Queued && KeyOf(j.tenant) == key && Level(j.priority) == p
    && |j.attempts| == j.retryCount && j.retryCount <= Cap(j)
  }

  ghost predicate RunningJob(j: Job) {
    j.status == Processing && |j.attempts| == j.retryCount + 1 && 0 <= j.retryCount <= Cap(j)
  }

  ghost predicate FinishedJob(j: Job) {
    j.status == Completed && |j.attempts| <= Cap(j) + 1
  }

  ghost predicate DeadJob(j: Job, key: string) {
    (j.status == DeadLetter || j.status == Cancelled) && KeyOf(j.tenant) == key && |j.attempts| <= Cap(j) + 1
  }

  /** Exactly the ids placed at `at`, each once. */
  ghost predicate Holds(jobs: seq<Job>, place: map<string, Place>, at: Place) {
    && (forall i, j :: 0 <= i < j < |jobs| ==> jobs[i].id != jobs[j].id)
    && (forall j :: j in jobs ==> j.id in place && place[j.id] == at)
    && (forall id :: id in place && place[id] == at ==> id in Ids(jobs))
  }

  ghost predicate HoldsMap(jobs: map<string, Job>, place: map<string, Place>, at: Place) {
    && (forall id :: id in jobs ==> jobs[id].id == id)
    && (forall id :: id in jobs <==> id in place && place[id] == at)
  }

  ghost predicate LaneOk(lane: seq<Job>, place: map<string, Place>, key: string, p: Priority) {
    Holds(lane, place, InLane(key, p)) && forall j :: j in lane ==> QueuedJob(j, key, p)
  }

  ghost predicate DeadOk(jobs: seq<Job>, place: map<string, Place>, key: string) {
    Holds(jobs, place, InDead(key)) && forall j :: j in jobs ==> DeadJob(j, key)
  }

  ghost predicate RunningOk(jobs: map<string, Job>, place: map<string, Place>) {
    HoldsMap(jobs, place, InProcessing) && forall id :: id in jobs ==> RunningJob(jobs[id])
  }

  ghost predicate FinishedOk(jobs: map<string, Job>, place: map<string, Place>) {
    HoldsMap(jobs, place, InCompleted) && forall id :: id in jobs ==> FinishedJob(jobs[id])
  }

  ghost predicate Lined(queues: Dict<string, Lanes>, place: map<string, Place>) {
    queues.Ok() && forall key, p :: LaneOk(LanesAt(queues, key).Get(p), place, key, p)
  }

  ghost predicate Buried(dead: Dict<string, seq<Job>>, place: map<string, Place>) {
    dead.Ok() && forall key :: DeadOk(DeadAt(dead, key), place, key)
  }

  ghost predicate Placed(s: Store) {
    && Lined(s.queues, s.log.place)
    && Buried(s.dead, s.log.place)
    && RunningOk(s.processing, s.log.place)
    && FinishedOk(s.completed, s.log.place)
  }

  // --- one job changes place -------------------------------------------------

  lemma LookupPut(queues: Dict<string, Lanes>, key: string, p: Priority, jobs: seq<Job>, other: string, q: Priority)
    ensures var d := queues.Put(key, LanesAt(queues, key).Put(p, jobs));
            LanesAt(d, other).Get(q) == if other == key && q == p then jobs else LanesAt(queues, other).Get(q)
  {
  }

  /** Containers other than the old and the new one do not notice. */
  lemma HoldsElsewhere(jobs: seq<Job>, place: map<string, Place>, at: Place, id: string, to: Place)
    requires Holds(jobs, place, at) && (id in place ==> place[id] != at) && to != at
    ensures Holds(jobs, place[id := to], at)
  {
  }

  lemma HoldsMapElsewhere(jobs: map<string, Job>, place: map<string, Place>, at: Place, id: string, to: Place)
    requires HoldsMap(jobs, place, at) && (id in place ==> place[id] != at) && to != at
    ensures HoldsMap(jobs, place[id := to], at)
  {
  }

  lemma HoldsAppend(jobs: seq<Job>, place: map<string, Place>, at: Place, j: Job)
    requires Holds(jobs, place, at) && (j.id in place ==> place[j.id] != at)
    ensures Holds(jobs + [j], place[j.id := at], at)
  {
    var r := jobs + [j];
    forall id | id in place[j.id := at] && place[j.id := at][id] == at
      ensures id in Ids(r)
    {
      if id == j.id {
        assert j in r;
      } else {
        assert id in Ids(jobs);
        var x :| x in jobs && x.id == id;
        assert x in r;
      }
    }
  }

  lemma WithoutMembers(jobs: seq<Job>, i: nat)
    requires i < |jobs|
    ensures forall j :: j in Without(jobs, i) ==> j in jobs
    ensures forall k :: 0 <= k < |jobs| && k != i ==> jobs[k] in Without(jobs, i)
  {
    var r := Without(jobs, i);
    forall j | j in r
      ensures j in jobs
    {
      var k :| 0 <= k < |r| && r[k] == j;
      assert j == jobs[if k < i then k else k + 1];
    }
    forall k | 0 <= k < |jobs| && k != i
      ensures jobs[k] in r
    {
      assert jobs[k] == r[if k < i then k else k - 1];
    }
  }

  lemma WithoutDistinct(jobs: seq<Job>, i: nat)
    requires i < |jobs| && forall k, l :: 0 <= k < l < |jobs| ==> jobs[k].id != jobs[l].id
    ensures var r := Without(jobs, i); forall k, l :: 0 <= k < l < |r| ==> r[k].id != r[l].id
    ensures forall j :: j in Without(jobs, i) ==> j.id != jobs[i].id
  {
    var r := Without(jobs, i);
    forall j | j in r
      ensures j.id != jobs[i].id
    {
      var k :| 0 <= k < |r| && r[k] == j;
      assert j == jobs[if k < i then k else k + 1];
    }
  }

  lemma HoldsWithout(jobs: seq<Job>, place: map<string, Place>, at: Place, i: nat, to: Place)
    requires Holds(jobs, place, at) && i < |jobs| && to != at
    ensures Holds(Without(jobs, i), place[jobs[i].id := to], at)
  {
    hide Without;
    var r, q := Without(jobs, i), place[jobs[i].id := to];
    WithoutMembers(jobs, i);
    WithoutDistinct(jobs, i);
    forall id | id in q && q[id] == at
      ensures id in Ids(r)
    {
      assert id in Ids(jobs);
      var k :| 0 <= k < |jobs| && jobs[k].id == id;
      assert jobs[k] in r;
    }
  }

  /** Every tenant's lanes, when a job moves into or out of one of them, or past all of them. */
  lemma LinedElsewhere(queues: Dict<string, Lanes>, place: map<string, Place>, id: string, to: Place)
    requires Lined(queues, place) && (id in place ==> !place[id].InLane?) && !to.InLane?
    ensures Lined(queues, place[id := to])
  {
    forall key, p
      ensures LaneOk(LanesAt(queues, key).Get(p), place[id := to], key, p)
    {
      assert LaneOk(LanesAt(queues, key).Get(p), place, key, p);
      HoldsElsewhere(LanesAt(queues, key).Get(p), place, InLane(key, p), id, to);
    }
  }

  lemma LinedSet(queues: Dict<string, Lanes>, place: map<string, Place>, key: string, p: Priority, jobs: seq<Job>, id: string, to: Place)
    requires Lined(queues, place) && LaneOk(jobs, place[id := to], key, p)
    requires id in place && place[id].InLane? ==> place[id] == InLane(key, p)
    requires to.InLane? ==> to == InLane(key, p)
    ensures Lined(queues.Put(key, LanesAt(queues, key).Put(p, jobs)), place[id := to])
  {
    hide Holds, QueuedJob;
    PutOk(queues, key, LanesAt(queues, key).Put(p, jobs));
    var d := queues.Put(key, LanesAt(queues, key).Put(p, jobs));
    forall other, q
      ensures LaneOk(LanesAt(d, other).Get(q), place[id := to], other, q)
    {
      LookupPut(queues, key, p, jobs, other, q);
      assert LaneOk(LanesAt(queues, other).Get(q), place, other, q);
      if other != key || q != p {
        HoldsElsewhere(LanesAt(queues, other).Get(q), place, InLane(other, q), id, to);
      }
    }
  }

  lemma BuriedElsewhere(dead: Dict<string, seq<Job>>, place: map<string, Place>, id: string, to: Place)
    requires Buried(dead, place) && (id in place ==> !place[id].InDead?) && !to.InDead?
    ensures Buried(dead, place[id := to])
  {
    forall key
      ensures DeadOk(DeadAt(dead, key), place[id := to], key)
    {
      assert DeadOk(DeadAt(dead, key), place, key);
      HoldsElsewhere(DeadAt(dead, key), place, InDead(key), id, to);
    }
  }

  // --- the moves ------------------------------------------------------------------

  /** A job that is nowhere, or held by the call, enters its lane. */
  lemma AppendKeeps(s: Store, j: Job)
    requires Placed(s) && (j.id in s.log.place ==> s.log.place[j.id] == Held)
    requires QueuedJob(j, KeyOf(j.tenant), Level(j.priority))
    ensures Placed(Append(s, j))
  {
    hide Holds, HoldsMap, QueuedJob;
    var key, p := KeyOf(j.tenant), Level(j.priority);
    var lane, to := LanesAt(s.queues, key).Get(p), InLane(key, p);
    assert LaneOk(lane, s.log.place, key, p);
    HoldsAppend(lane, s.log.place, to, j);
    LinedSet(s.queues, s.log.place, key, p, lane + [j], j.id, to);
    BuriedElsewhere(s.dead, s.log.place, j.id, to);
    HoldsMapElsewhere(s.processing, s.log.place, InProcessing, j.id, to);
    HoldsMapElsewhere(s.completed, s.log.place, InCompleted, j.id, to);
  }

  lemma WithdrawKeeps(s: Store, key: string, p: Priority, i: nat)
    requires Placed(s) && i < |LanesAt(s.queues, key).Get(p)|
    ensures var j := LanesAt(s.queues, key).Get(p)[i];
            && Placed(Withdraw(s, key, p, i)) && QueuedJob(j, key, p)
            && j.id in s.log.place && s.log.place[j.id] == InLane(key, p)
  {
    hide HoldsMap, QueuedJob;
    var lane := LanesAt(s.queues, key).Get(p);
    var id := lane[i].id;
    assert LaneOk(lane, s.log.place, key, p);
    HoldsWithout(lane, s.log.place, InLane(key, p), i, Held);
    assert forall j :: j in Without(lane, i) ==> j in lane;
    assert lane[i] in lane;
    LinedSet(s.queues, s.log.place, key, p, Without(lane, i), id, Held);
    BuriedElsewhere(s.dead, s.log.place, id, Held);
    HoldsMapElsewhere(s.processing, s.log.place, InProcessing, id, Held);
    HoldsMapElsewhere(s.completed, s.log.place, InCompleted, id, Held);
  }

  lemma StartKeeps(s: Store, j: Job)
    requires Placed(s) && j.id in s.log.place && s.log.place[j.id] == Held && RunningJob(j)
    ensures Placed(Start(s, j))
  {
    hide Holds;
    LinedElsewhere(s.queues, s.log.place, j.id, InProcessing);
    BuriedElsewhere(s.dead, s.log.place, j.id, InProcessing);
    HoldsMapElsewhere(s.completed, s.log.place, InCompleted, j.id, InProcessing);
  }

  lemma StopKeeps(s: Store, id: string)
    requires Placed(s) && id in s.processing
    ensures Placed(StopProcessing(s, id)) && s.processing[id].id == id && RunningJob(s.processing[id])
  {
    hide Holds;
    LinedElsewhere(s.queues, s.log.place, id, Held);
    BuriedElsewhere(s.dead, s.log.place, id, Held);
    HoldsMapElsewhere(s.completed, s.log.place, InCompleted, id, Held);
  }

  lemma KeepKeeps(s: Store, j: Job)
    requires Placed(s) && j.id in s.log.place && s.log.place[j.id] == Held && FinishedJob(j)
    ensures Placed(Keep(s, j))
  {
    hide Holds;
    LinedElsewhere(s.queues, s.log.place, j.id, InCompleted);
    BuriedElsewhere(s.dead, s.log.place, j.id, InCompleted);
    HoldsMapElsewhere(s.processing, s.log.place, InProcessing, j.id, InCompleted);
  }

  lemma UncompleteKeeps(s: Store, id: string)
    requires Placed(s) && id in s.completed
    ensures Placed(Uncomplete(s, id)) && s.completed[id].id == id && FinishedJob(s.completed[id])
  {
    hide Holds;
    LinedElsewhere(s.queues, s.log.place, id, Held);
    BuriedElsewhere(s.dead, s.log.place, id, Held);
    HoldsMapElsewhere(s.processing, s.log.place, InProcessing, id, Held);
  }

  lemma BuryKeeps(s: Store, j: Job)
    requires Placed(s) && j.id in s.log.place && s.log.place[j.id] == Held && DeadJob(j, KeyOf(j.tenant))
    ensures Placed(Bury(s, j))
  {
    hide Holds, HoldsMap, DeadJob;
    var key := KeyOf(j.tenant);
    var jobs, to := DeadAt(s.dead, key), InDead(key);
    LinedElsewhere(s.queues, s.log.place, j.id, to);
    HoldsMapElsewhere(s.processing, s.log.place, InProcessing, j.id, to);
    HoldsMapElsewhere(s.completed, s.log.place, InCompleted, j.id, to);
    assert DeadOk(jobs, s.log.place, key);
    HoldsAppend(jobs, s.log.place, to, j);
    var d := s.dead.Put(key, jobs + [j]);
    PutOk(s.dead, key, jobs + [j]);
    forall other
      ensures DeadOk(DeadAt(d, other), s.log.place[j.id := to], other)
    {
      assert DeadOk(DeadAt(s.dead, other), s.log.place, other);
      if other != key {
        HoldsElsewhere(DeadAt(s.dead, other), s.log.place, InDead(other), j.id, to);
      }
    }
  }

  lemma WithTenantKeeps(s: Store, key: string)
    requires Placed(s)
    ensures Placed(WithTenant(s, key))
  {
    hide LaneOk, DeadOk, RunningOk, FinishedOk;
    PutOk(s.queues, key, LanesAt(s.queues, key));
    var d := WithTenant(s, key).queues;
    assert forall other :: LanesAt(d, other) == LanesAt(s.queues, other);
  }

  // --- expiry and pruning ------------------------------------------------------

  /** How many of the jobs are still alive. */
  function Alive(jobs: seq<Job>, now: real): nat {
    if jobs == [] then 0
    else
      var n := |jobs| - 1;
      Alive(jobs[..n], now) + (if Expired(jobs[n], now) then 0 else 1)
  }

  /** The purge keeps exactly the unexpired jobs, in their order: each moves up by the expired jobs before it. */
  lemma {:induction false} UnexpiredKeepsOrder(jobs: seq<Job>, now: real)
    ensures |Unexpired(jobs, now)| == Alive(jobs, now) && Alive(jobs, now) + Dropped(jobs, now) == |jobs|
    ensures forall i :: 0 <= i < |jobs| && !Expired(jobs[i], now) ==>
              Alive(jobs[..i], now) < Alive(jobs, now) && Unexpired(jobs, now)[Alive(jobs[..i], now)] == jobs[i]
  {
    hide Unexpired, Alive, Dropped, Expired;
    if jobs == [] {
      NothingPurged(now);
    } else {
      var front := jobs[..|jobs| - 1];
      UnexpiredKeepsOrder(front, now);
      LastPurged(jobs, now);
      forall i | 0 <= i < |jobs| && !Expired(jobs[i], now)
        ensures Alive(jobs[..i], now) < Alive(jobs, now) && Unexpired(jobs, now)[Alive(jobs[..i], now)] == jobs[i]
      {
        if i < |front| {
          assert front[..i] == jobs[..i] && front[i] == jobs[i];
        }
      }
    }
  }

  lemma NothingPurged(now: real)
    ensures Unexpired([], now) == [] && Alive([], now) == 0 == Dropped([], now)
  {
  }

  lemma LastPurged(jobs: seq<Job>, now: real)
    requires jobs != []
    ensures var front, last := jobs[..|jobs| - 1], jobs[|jobs| - 1];
            && Unexpired(jobs, now) == Unexpired(front, now) + (if Expired(last, now) then [] else [last])
            && Alive(jobs, now) == Alive(front, now) + (if Expired(last, now) then 0 else 1)
            && Dropped(jobs, now) == Dropped(front, now) + if Expired(last, now) then 1 else 0
  {
    hide Expired;
  }

  lemma {:induction false} UnexpiredMembers(jobs: seq<Job>, now: real)
    ensures forall j :: j in Unexpired(jobs, now) <==> j in jobs && !Expired(j, now)
    ensures (forall k, l :: 0 <= k < l < |jobs| ==> jobs[k].id != jobs[l].id) ==>
              (forall k, l :: 0 <= k < l < |Unexpired(jobs, now)| ==> Unexpired(jobs, now)[k].id != Unexpired(jobs, now)[l].id)
  {
    if jobs != [] {
      var n := |jobs| - 1;
      UnexpiredMembers(jobs[..n], now);
      assert jobs == jobs[..n] + [jobs[n]];
      var kept := Unexpired(jobs[..n], now);
      if forall k, l :: 0 <= k < l < |jobs| ==> jobs[k].id != jobs[l].id {
        forall k | 0 <= k < |kept|
          ensures kept[k].id != jobs[n].id
        {
          assert kept[k] in jobs[..n];
        }
      }
    }
  }

  /** Ids that leave one place for another, all at once. */
  ghost predicate Moves(place: map<string, Place>, after: map<string, Place>, ids: set<string>, at: Place, to: Place) {
    && (forall id :: id in ids ==> id in place && place[id] == at && id in after && after[id] == to)
    && (forall id :: id !in ids ==> (id in place <==> id in after) && (id in place ==> after[id] == place[id]))
  }

  lemma HoldsPast(jobs: seq<Job>, place: map<string, Place>, after: map<string, Place>, ids: set<string>, from: Place, to: Place, at: Place)
    requires Holds(jobs, place, at) && Moves(place, after, ids, from, to) && at != from && at != to
    ensures Holds(jobs, after, at)
  {
  }

  lemma HoldsMapPast(jobs: map<string, Job>, place: map<string, Place>, after: map<string, Place>, ids: set<string>,
                     from: Place, to: Place, at: Place)
    requires HoldsMap(jobs, place, at) && Moves(place, after, ids, from, to) && at != from && at != to
    ensures HoldsMap(jobs, after, at)
  {
  }

  /** The ids that a purge drops are those of expired jobs, and of no others. */
  lemma OverdueIds(jobs: seq<Job>, now: real)
    requires forall k, l :: 0 <= k < l < |jobs| ==> jobs[k].id != jobs[l].id
    ensures forall j :: j in jobs ==> (j.id in Overdue(jobs, now) <==> Expired(j, now))
    ensures Overdue(jobs, now) <= Ids(jobs)
  {
    hide Expired;
    forall j, x | j in jobs && x in jobs && x.id == j.id
      ensures x == j
    {
      SameIdSameJob(jobs, x, j);
    }
  }

  lemma OverdueMoves(jobs: seq<Job>, place: map<string, Place>, at: Place, now: real)
    requires Holds(jobs, place, at)
    ensures Moves(place, place + map id | id in Overdue(jobs, now) :: TimedOut, Overdue(jobs, now), at, TimedOut)
  {
    hide Expired, Overdue;
    OverdueIds(jobs, now);
    forall id | id in Overdue(jobs, now)
      ensures id in place && place[id] == at
    {
      var j :| j in jobs && j.id == id;
    }
  }

  lemma HoldsPurged(jobs: seq<Job>, place: map<string, Place>, at: Place, now: real)
    requires Holds(jobs, place, at) && at.InLane?
    ensures var after := place + map id | id in Overdue(jobs, now) :: TimedOut;
            Holds(Unexpired(jobs, now), after, at) && Moves(place, after, Overdue(jobs, now), at, TimedOut)
  {
    hide Unexpired, Overdue, Expired, Moves;
    UnexpiredMembers(jobs, now);
    OverdueIds(jobs, now);
    OverdueMoves(jobs, place, at, now);
    var after := place + map id | id in Overdue(jobs, now) :: TimedOut;
    forall id | id in after && after[id] == at
      ensures id in Ids(Unexpired(jobs, now))
    {
      assert id in Ids(jobs);
      var j :| j in jobs && j.id == id;
      assert j in Unexpired(jobs, now);
    }
  }

  lemma SameIdSameJob(jobs: seq<Job>, a: Job, b: Job)
    requires forall k, l :: 0 <= k < l < |jobs| ==> jobs[k].id != jobs[l].id
    requires a in jobs && b in jobs && a.id == b.id
    ensures a == b
  {
    var k :| 0 <= k < |jobs| && jobs[k] == a;
    var l :| 0 <= l < |jobs| && jobs[l] == b;
    assert k == l;
  }

  lemma PurgeKeeps(s: Store, key: string, p: Priority, now: real)
    requires Placed(s)
    ensures Placed(Purge(s, key, p, now))
    ensures Moves(s.log.place, Purge(s, key, p, now).log.place, Overdue(LanesAt(s.queues, key).Get(p), now), InLane(key, p), TimedOut)
  {
    hide Holds, HoldsMap, QueuedJob, Unexpired, Dropped, Overdue, Moves;
    var lane, from := LanesAt(s.queues, key).Get(p), InLane(key, p);
    var place, after := s.log.place, Purge(s, key, p, now).log.place;
    var kept, ids := Unexpired(lane, now), Overdue(lane, now);
    assert LaneOk(lane, place, key, p);
    HoldsPurged(lane, place, from, now);
    UnexpiredMembers(lane, now);
    PutOk(s.queues, key, LanesAt(s.queues, key).Put(p, kept));
    var d := s.queues.Put(key, LanesAt(s.queues, key).Put(p, kept));
    forall other, q
      ensures LaneOk(LanesAt(d, other).Get(q), after, other, q)
    {
      LookupPut(s.queues, key, p, kept, other, q);
      assert LaneOk(LanesAt(s.queues, other).Get(q), place, other, q);
      if other != key || q != p {
        HoldsPast(LanesAt(s.queues, other).Get(q), place, after, ids, from, TimedOut, InLane(other, q));
      }
    }
    forall other
      ensures DeadOk(DeadAt(s.dead, other), after, other)
    {
      assert DeadOk(DeadAt(s.dead, other), place, other);
      HoldsPast(DeadAt(s.dead, other), place, after, ids, from, TimedOut, InDead(other));
    }
    HoldsMapPast(s.processing, place, after, ids, from, TimedOut, InProcessing);
    HoldsMapPast(s.completed, place, after, ids, from, TimedOut, InCompleted);
  }

  lemma LinedPast(queues: Dict<string, Lanes>, place: map<string, Place>, after: map<string, Place>, ids: set<string>, from: Place, to: Place)
    requires Lined(queues, place) && Moves(place, after, ids, from, to) && !from.InLane? && !to.InLane?
    ensures Lined(queues, after)
  {
    hide Holds, QueuedJob, Moves;
    forall key, p
      ensures LaneOk(LanesAt(queues, key).Get(p), after, key, p)
    {
      assert LaneOk(LanesAt(queues, key).Get(p), place, key, p);
      HoldsPast(LanesAt(queues, key).Get(p), place, after, ids, from, to, InLane(key, p));
    }
  }

  lemma BuriedPast(dead: Dict<string, seq<Job>>, place: map<string, Place>, after: map<string, Place>, ids: set<string>, from: Place, to: Place)
    requires Buried(dead, place) && Moves(place, after, ids, from, to) && !from.InDead? && !to.InDead?
    ensures Buried(dead, after)
  {
    hide Holds, DeadJob, Moves;
    forall key
      ensures DeadOk(DeadAt(dead, key), after, key)
    {
      assert DeadOk(DeadAt(dead, key), place, key);
      HoldsPast(DeadAt(dead, key), place, after, ids, from, to, InDead(key));
    }
  }

  lemma FinishedPruned(completed: map<string, Job>, place: map<string, Place>, after: map<string, Place>, ids: set<string>)
    requires FinishedOk(completed, place) && Moves(place, after, ids, InCompleted, Pruned) && forall id :: id in ids ==> id in completed
    ensures FinishedOk(completed - ids, after)
  {
    hide FinishedJob;
  }

  lemma PruneKeeps(s: Store, now: real)
    requires Placed(s)
    ensures Placed(Prune(s, now))
    ensures Moves(s.log.place, Prune(s, now).log.place, StaleIds(s.completed, now), InCompleted, Pruned)
  {
    hide Lined, Buried, RunningJob, FinishedJob, StaleIds;
    var place, after := s.log.place, Prune(s, now).log.place;
    var ids := StaleIds(s.completed, now);
    StaleAreCompleted(s.completed, now);
    assert Moves(place, after, ids, InCompleted, Pruned);
    LinedPast(s.queues, place, after, ids, InCompleted, Pruned);
    BuriedPast(s.dead, place, after, ids, InCompleted, Pruned);
    FinishedPruned(s.completed, place, after, ids);
    HoldsMapPast(s.processing, place, after, ids, InCompleted, Pruned, InProcessing);
  }

  lemma StaleAreCompleted(completed: map<string, Job>, now: real)
    ensures forall id :: id in StaleIds(completed, now) ==> id in completed
  {
  }
}
