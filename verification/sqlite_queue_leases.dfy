/**
 What the SQLite queue guarantees over whole runs of its calls: which rows a call claims, that
 two claims of one job are a lease apart, and how often a job can be claimed at all.
 */
module SqliteLeases {
  import opened Wrappers
  import opened Jobs
  import opened SqliteQueue

  // --- what one call claims -------------------------------------------------------

  predicate Ordered(t: Table, ids: seq<string>)
    requires forall x :: x in ids ==> x in t
  {
    forall i, j :: 0 <= i < j < |ids| ==> !Ahead(t[ids[j]], t[ids[i]])
  }

  lemma {:induction false} InsertMembers(t: Table, ids: seq<string>, id: string)
    requires id in t && forall x :: x in ids ==> x in t
    ensures forall x :: x in Insert(t, ids, id) <==> x == id || x in ids
  {
    InsertKeeps(t, ids, id);
    assert forall x :: x in Insert(t, ids, id) <==> x in multiset(Insert(t, ids, id));
  }

  /** The order is a weak one: what is not ahead of a row is not ahead of anything before it either. */
  lemma NotAhead(a: Row, b: Row, d: Row)
    requires !Ahead(a, b) && !Ahead(b, d)
    ensures !Ahead(a, d)
  {
  }

  lemma AheadOneWay(a: Row, b: Row)
    requires Ahead(a, b)
    ensures !Ahead(b, a)
  {
  }

  lemma {:induction false} InsertOrders(t: Table, ids: seq<string>, id: string)
    requires id in t && (forall x :: x in ids ==> x in t) && Ordered(t, ids)
    ensures (forall x :: x in Insert(t, ids, id) <==> x == id || x in ids) && Ordered(t, Insert(t, ids, id))
  {
    hide Ahead;
    InsertMembers(t, ids, id);
    if ids != [] {
      var n := |ids| - 1;
      if Ahead(t[id], t[ids[n]]) {
        AheadOneWay(t[id], t[ids[n]]);
        var front := Insert(t, ids[..n], id);
        InsertOrders(t, ids[..n], id);
        forall k | 0 <= k < |front|
          ensures !Ahead(t[ids[n]], t[front[k]])
        {
          assert front[k] in front;
        }
      } else {
        forall k | 0 <= k <= n
          ensures !Ahead(t[id], t[ids[k]])
        {
          if k < n {
            NotAhead(t[id], t[ids[n]], t[ids[k]]);
          }
        }
      }
    }
  }

  lemma {:induction false} SortOrders(t: Table, ids: seq<string>)
    requires forall x :: x in ids ==> x in t
    ensures var r := Sort(t, ids); (forall x :: x in r <==> x in ids) && Ordered(t, r)
  {
    var r := Sort(t, ids);
    assert forall x :: x in r <==> x in multiset(r);
    assert forall x :: x in ids <==> x in multiset(ids);
    if ids != [] {
      var n := |ids| - 1;
      SortOrders(t, ids[..n]);
      InsertOrders(t, Sort(t, ids[..n]), ids[n]);
    }
  }

  ghost predicate Enumerates(scan: seq<string>, t: Table) {
    (forall id :: id in t <==> id in scan) && Distinct(scan)
  }

  ghost predicate Distinct(ids: seq<string>) {
    forall i, j :: 0 <= i < j < |ids| ==> ids[i] != ids[j]
  }

  lemma {:induction false} FilterDistinct(t: Table, scan: seq<string>, types: seq<string>)
    requires Distinct(scan)
    ensures Distinct(Filter(t, scan, types))
  {
    if scan != [] {
      var n := |scan| - 1;
      FilterDistinct(t, scan[..n], types);
      FilterSelects(t, scan[..n], types);
      forall x | x in Filter(t, scan[..n], types)
        ensures x != scan[n]
      {
        assert x in scan[..n];
      }
    }
  }

  lemma OnceEach(ids: seq<string>)
    requires Distinct(ids)
    ensures forall x :: x in ids ==> multiset(ids)[x] == 1
  {
    forall x | x in ids
      ensures multiset(ids)[x] == 1
    {
      var i :| 0 <= i < |ids| && ids[i] == x;
      assert ids == ids[..i] + [x] + ids[i + 1..];
      assert x !in ids[..i] && x !in ids[i + 1..];
    }
  }

  lemma DistinctIfOnce(ids: seq<string>)
    requires forall x :: x in ids ==> multiset(ids)[x] == 1
    ensures Distinct(ids)
  {
    forall i, j | 0 <= i < j < |ids|
      ensures ids[i] != ids[j]
    {
      assert ids == ids[..j] + [ids[j]] + ids[j + 1..];
      assert ids[i] in ids[..j];
      assert multiset(ids)[ids[j]] == 1;
    }
  }

  /**
   A call claims exactly the first `limit` of the queued, unexpired rows of the wanted types by
   (priority descending, created_at ascending), each once, and touches no other row after the sweep.
   */
  lemma ClaimsTheFirst(c: Limits, t: Table, scan: seq<string>, worker: string, types: seq<string>, limit: int, now: real)
    requires Enumerates(scan, t)
    ensures var b, u := Dequeue(c, t, scan, worker, types, limit, now), Sweep(c, t, now);
            && Distinct(b.ids)
            && (forall id :: id in b.ids ==> id in u && Eligible(u[id], types) && !Outdated(u[id], now))
            && (forall i, j :: 0 <= i < j < |b.ids| ==> !Ahead(u[b.ids[j]], u[b.ids[i]]))
            && (forall id, other :: id in b.ids && other in u && Eligible(u[other], types) && other !in b.ids ==> !Ahead(u[other], u[id]))
            && (limit >= 0 ==> |b.ids| <= limit)
            && ((limit < 0 || |b.ids| < limit) ==> forall id :: id in u && Eligible(u[id], types) ==> id in b.ids)
            && b.table.Keys == t.Keys
            && forall id :: id in t ==> b.table[id] == if id in b.ids then Claimed(u[id], worker, now) else u[id]
  {
    hide Ahead, Claimed, Sort, Filter, Swept, LeaseOver, Outdated;
    SweptIsCurrent(c, t, now);
    var u := Sweep(c, t, now);
    var all := Filter(u, scan, types);
    FilterSelects(u, scan, types);
    FilterDistinct(u, scan, types);
    SortOrders(u, all);
    var sorted := Sort(u, all);
    SortDistinct(u, all);
    var ids := Cut(sorted, limit);
    forall id, other | id in ids && other in u && Eligible(u[other], types) && other !in ids
      ensures !Ahead(u[other], u[id])
    {
      assert other in sorted;
      CutIsFirst(sorted, limit, id, other);
    }
  }

  lemma SweptIsCurrent(c: Limits, t: Table, now: real)
    ensures forall id :: id in Sweep(c, t, now) ==> !Outdated(Sweep(c, t, now)[id], now)
  {
  }

  lemma SortDistinct(t: Table, ids: seq<string>)
    requires (forall x :: x in ids ==> x in t) && Distinct(ids)
    ensures Distinct(Sort(t, ids))
  {
    hide Sort;
    var r := Sort(t, ids);
    OnceEach(ids);
    assert forall x :: x in r ==> x in multiset(r);
    assert forall x :: x in multiset(ids) ==> x in ids;
    DistinctIfOnce(r);
  }

  lemma CutIsFirst(sorted: seq<string>, limit: int, id: string, other: string)
    requires id in Cut(sorted, limit) && other in sorted && other !in Cut(sorted, limit)
    ensures exists i, j :: 0 <= i < j < |sorted| && sorted[i] == id && sorted[j] == other
  {
    var i :| 0 <= i < |Cut(sorted, limit)| && Cut(sorted, limit)[i] == id;
    assert forall k :: 0 <= k <= i ==> sorted[k] == Cut(sorted, limit)[k];
    var j :| 0 <= j < |sorted| && sorted[j] == other;
    assert sorted[i] == id && i < j;
  }

  // --- leases ---------------------------------------------------------------------------

  ghost predicate Monotone(calls: seq<Timed>) {
    forall i, j :: 0 <= i < j < |calls| ==> calls[i].now <= calls[j].now
  }

  /** Calls that hand a job back to the queue or replace it. */
  predicate Resets(e: Timed, id: string) {
    (e.call.Put? || e.call.SendBack? || e.call.GiveUp?) && e.call.id == id
  }

  /** A row claimed at `since`: while its lease runs it is not queued, and no claim later than `since` holds it. */
  ghost predicate Leased(c: Limits, t: Table, id: string, since: real, now: real) {
    && id in t
    && (t[id].status == Queued ==> now - since > c.claimTimeout)
    && (t[id].status == Processing ==> t[id].startedAt == Some(since) || now - since > c.claimTimeout)
  }

  lemma LeaseStays(c: Limits, t: Table, e: Timed, id: string, since: real, before: real)
    requires Leased(c, t, id, since, before) && before <= e.now && !Resets(e, id)
    ensures Leased(c, Apply(c, t, e), id, since, e.now)
    ensures e.call.Take? && id in Dequeue(c, t, e.call.scan, e.call.worker, e.call.types, e.call.limit, e.now).ids
      ==> e.now - since > c.claimTimeout
  {
    if e.call.Take? {
      TakeClaims(c, t, e.call.scan, e.call.worker, e.call.types, e.call.limit, e.now, id);
    }
  }

  lemma TakeClaims(c: Limits, t: Table, scan: seq<string>, worker: string, types: seq<string>, limit: int, now: real, id: string)
    requires id in t
    ensures var b := Dequeue(c, t, scan, worker, types, limit, now);
            && id in b.table
            && b.table[id] == (if id in b.ids then Claimed(Swept(c, t[id], now), worker, now) else Swept(c, t[id], now))
            && (id in b.ids ==> Swept(c, t[id], now).status == Queued)
  {
    hide Swept, Claimed;
    SelectsQueued(Sweep(c, t, now), scan, types, limit);
  }

  lemma SelectsQueued(t: Table, scan: seq<string>, types: seq<string>, limit: int)
    ensures forall id :: id in Select(t, scan, types, limit) ==> id in t && t[id].status == Queued
  {
    FilterSelects(t, scan, types);
    var sorted := Sort(t, Filter(t, scan, types));
    assert forall id :: id in sorted ==> id in multiset(sorted);
    assert forall id :: id in multiset(Filter(t, scan, types)) ==> id in Filter(t, scan, types);
  }

  lemma {:induction false} LeaseRuns(c: Limits, calls: seq<Timed>, id: string, i: nat)
    requires Monotone(calls) && i < |calls| && id in ClaimsAt(c, calls, i)
    requires forall k :: i < k < |calls| ==> !Resets(calls[k], id)
    ensures Leased(c, Run(c, calls), id, calls[i].now, calls[|calls| - 1].now)
  {
    hide Apply, Leased, Dequeue;
    var n := |calls| - 1;
    if i < n {
      assert calls[..n][..i] == calls[..i];
      LeaseRuns(c, calls[..n], id, i);
      LeaseStays(c, Run(c, calls[..n]), calls[n], id, calls[i].now, calls[n - 1].now);
    } else {
      LeaseStarts(c, Run(c, calls[..n]), calls[n], id);
    }
  }

  lemma LeaseStarts(c: Limits, t: Table, e: Timed, id: string)
    requires e.call.Take? && id in Dequeue(c, t, e.call.scan, e.call.worker, e.call.types, e.call.limit, e.now).ids
    ensures Leased(c, Apply(c, t, e), id, e.now, e.now)
  {
    SelectsQueued(Sweep(c, t, e.now), e.call.scan, e.call.types, e.call.limit);
    TakeClaims(c, t, e.call.scan, e.call.worker, e.call.types, e.call.limit, e.now, id);
  }

  /**
   Lease exclusivity: two claims of one job, with no fail, requeue or new submission of it in
   between, are more than the claim timeout apart.
   */
  lemma LeasesDoNotOverlap(c: Limits, calls: seq<Timed>, id: string, i: nat, j: nat)
    requires Monotone(calls) && i < j < |calls|
    requires id in ClaimsAt(c, calls, i) && id in ClaimsAt(c, calls, j)
    requires forall k :: i < k < j ==> !Resets(calls[k], id)
    ensures calls[j].now - calls[i].now > c.claimTimeout
  {
    hide Apply, Leased, Dequeue, Run;
    var before := calls[..j];
    assert before[..i] == calls[..i];
    LeaseRuns(c, before, id, i);
    LeaseStays(c, Run(c, before), calls[j], id, calls[i].now, calls[j - 1].now);
  }

  // --- retries -----------------------------------------------------------------------------

  ghost predicate WithinRetries(t: Table) {
    forall id :: id in t ==> t[id].retryCount <= t[id].maxRetries
  }

  /** Submissions and requeues that respect the bound themselves. */
  predicate Modest(t: Table, e: Timed) {
    match e.call
    case Put(_, job) => job.retryCount <= job.maxRetries
    case SendBack(id, retryCount, _) => id in t ==> retryCount <= t[id].maxRetries
    case _ => true
  }

  /** Neither reclaiming nor failing pushes a retry count past its maximum. */
  lemma RetriesStayBounded(c: Limits, t: Table, e: Timed)
    requires WithinRetries(t) && Modest(t, e)
    ensures WithinRetries(Apply(c, t, e))
  {
    hide Dequeue, Swept;
    if e.call.Take? {
      TakeKeepsKeys(c, t, e);
      forall id | id in t
        ensures Apply(c, t, e)[id].retryCount <= Apply(c, t, e)[id].maxRetries
      {
        TakeClaims(c, t, e.call.scan, e.call.worker, e.call.types, e.call.limit, e.now, id);
        SweepPays(c, t[id], e.now);
      }

    }
  }

  lemma {:induction false} RetriesBoundedInRuns(c: Limits, calls: seq<Timed>)
    requires forall i :: 0 <= i < |calls| ==> Modest(Run(c, calls[..i]), calls[i])
    ensures WithinRetries(Run(c, calls))
  {
    hide Apply, Modest, WithinRetries;
    if calls == [] {
      assert WithinRetries(map[]) by { NoRows(); }
    } else {
      var n := |calls| - 1;
      forall i | 0 <= i < n
        ensures Modest(Run(c, calls[..n][..i]), calls[..n][i])
      {
        assert calls[..n][..i] == calls[..i];
      }
      RetriesBoundedInRuns(c, calls[..n]);
      RetriesStayBounded(c, Run(c, calls[..n]), calls[n]);
    }
  }

  lemma NoRows()
    ensures WithinRetries(map[])
  {
  }

  lemma TakeKeepsKeys(c: Limits, t: Table, e: Timed)
    requires e.call.Take?
    ensures Apply(c, t, e).Keys == t.Keys
  {
  }

  /** How often a job was claimed from the `i`-th call on. */
  function ClaimCount(c: Limits, calls: seq<Timed>, i: nat, id: string): nat
    requires i <= |calls|
    decreases |calls|
  {
    if i == |calls| then 0
    else ClaimCount(c, calls[..|calls| - 1], i, id) + ClaimsIn(c, Run(c, calls[..|calls| - 1]), calls[|calls| - 1], id)
  }

  /** Every claim but the last was paid for with a retry. */
  ghost predicate Paid(t: Table, id: string, claims: nat) {
    && id in t && t[id].retryCount <= t[id].maxRetries
    && claims <= t[id].retryCount + if t[id].status == Queued then 0 else 1
  }

  predicate Renews(e: Timed, id: string) {
    (e.call.Put? || e.call.SendBack?) && e.call.id == id
  }

  function ClaimsIn(c: Limits, t: Table, e: Timed, id: string): nat {
    if e.call.Take? && id in Dequeue(c, t, e.call.scan, e.call.worker, e.call.types, e.call.limit, e.now).ids then 1 else 0
  }

  lemma PaysForClaims(c: Limits, t: Table, e: Timed, id: string, claims: nat)
    requires Paid(t, id, claims) && !Renews(e, id)
    ensures Paid(Apply(c, t, e), id, claims + ClaimsIn(c, t, e, id))
  {
    hide Dequeue, Swept;
    if e.call.Take? {
      TakeClaims(c, t, e.call.scan, e.call.worker, e.call.types, e.call.limit, e.now, id);
      SweepPays(c, t[id], e.now);
    }
  }

  /** A reclaimed row has paid for its next claim. */
  lemma SweepPays(c: Limits, r: Row, now: real)
    ensures var q := Swept(c, r, now);
            && q.maxRetries == r.maxRetries && (r.retryCount <= r.maxRetries ==> q.retryCount <= q.maxRetries)
            && r.retryCount + (if r.status == Queued then 0 else 1) <= q.retryCount + if q.status == Queued then 0 else 1
  {
  }

  /** `i` is the accepted submission of a fresh job. */
  ghost predicate Submitted(c: Limits, calls: seq<Timed>, i: nat, id: string)
    requires i < |calls|
  {
    && calls[i].call.Put? && calls[i].call.id == id && Enqueue(c, Run(c, calls[..i]), id, calls[i].call.job, calls[i].now).ok
    && calls[i].call.job.status == Queued && 0 == calls[i].call.job.retryCount <= calls[i].call.job.maxRetries
  }

  lemma {:induction false} ClaimsArePaid(c: Limits, calls: seq<Timed>, i: nat, id: string)
    requires i < |calls| && Submitted(c, calls, i, id)
    requires forall k :: i < k < |calls| ==> !Renews(calls[k], id)
    ensures id in Run(c, calls) && Paid(Run(c, calls), id, ClaimCount(c, calls, i, id)) && Run(c, calls)[id].maxRetries == calls[i].call.job.maxRetries
  {
    hide Dequeue, Fail, Cancel, Complete, Paid;
    var n := |calls| - 1;
    if i < n {
      assert calls[..n][..i] == calls[..i];
      ClaimsArePaid(c, calls[..n], i, id);
      PaysForClaims(c, Run(c, calls[..n]), calls[n], id, ClaimCount(c, calls[..n], i, id));
      KeepsMaximum(c, Run(c, calls[..n]), calls[n], id);
    } else {
      FreshIsPaid(c, Run(c, calls[..n]), calls[n], id);
      assert ClaimCount(c, calls, i, id) == 0;
    }
  }

  lemma FreshIsPaid(c: Limits, t: Table, e: Timed, id: string)
    requires e.call.Put? && e.call.id == id && Enqueue(c, t, id, e.call.job, e.now).ok
    requires e.call.job.status == Queued && 0 == e.call.job.retryCount <= e.call.job.maxRetries
    ensures Paid(Apply(c, t, e), id, 0) && Apply(c, t, e)[id].maxRetries == e.call.job.maxRetries
  {
  }

  lemma KeepsMaximum(c: Limits, t: Table, e: Timed, id: string)
    requires id in t && !Renews(e, id)
    ensures id in Apply(c, t, e) && Apply(c, t, e)[id].maxRetries == t[id].maxRetries
  {
    if e.call.Take? {
      TakeClaims(c, t, e.call.scan, e.call.worker, e.call.types, e.call.limit, e.now, id);
    }
  }

  /** A job submitted once is claimed at most `max_retries + 1` times, however its leases end. */
  lemma ClaimedAtMost(c: Limits, calls: seq<Timed>, i: nat, id: string)
    requires i < |calls| && Submitted(c, calls, i, id)
    requires forall k :: i < k < |calls| ==> !Renews(calls[k], id)
    ensures ClaimCount(c, calls, i, id) <= calls[i].call.job.maxRetries + 1
  {
    hide Run, ClaimCount;
    ClaimsArePaid(c, calls, i, id);
  }
}
