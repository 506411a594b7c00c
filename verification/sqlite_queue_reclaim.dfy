/**
 What becomes of a row, told by its own fields and the clock: when a lease is over and what then
 happens to the row, that a job whose worker died is handed out again, and what each call stores.
 */
module SqliteReclaim {
  import opened Wrappers
  import opened Jobs
  import opened SqliteQueue
  import opened SqliteLeases

  /** Claimed more than the timeout ago. */
  ghost predicate Abandoned(c: Limits, r: Row, now: real) {
    r.status == Processing && r.startedAt.Some? && now - r.startedAt.value > c.claimTimeout
  }

  ghost predicate Past(r: Row, now: real) {
    r.expiresAt.Some? && r.expiresAt.value < now
  }

  /** Back in the queue, with one more retry and no worker. */
  function GivenBack(r: Row): Row {
    r.(status := Queued, startedAt := None, worker := None, retryCount := r.retryCount + 1)
  }

  /**
   The sweep: an abandoned row is given back if a retry and time to live are left, and is a dead
   letter otherwise; so is a queued row past its time to live. Every other row is left as it was.
   */
  lemma SweepFate(c: Limits, t: Table, id: string, now: real)
    requires id in t
    ensures Sweep(c, t, now).Keys == t.Keys
    ensures var r, u := t[id], Sweep(c, t, now)[id];
            if Abandoned(c, r, now) then
              if r.retryCount < r.maxRetries && !Past(r, now) then u == GivenBack(r)
              else if r.retryCount < r.maxRetries then u == GivenBack(r).(status := DeadLetter, error := Some("Job TTL expired"))
              else u == r.(status := DeadLetter, error := Some("Claim lease expired (worker timeout/death)"))
            else if r.status == Queued && Past(r, now) then u == r.(status := DeadLetter, error := Some("Job TTL expired"))
            else u == r
  {
  }

  /** Of a row that is claimed nothing changes but its status, its start and its worker; other rows are as the sweep left them. */
  lemma ClaimFate(c: Limits, t: Table, scan: seq<string>, worker: string, types: seq<string>, limit: int, now: real, id: string)
    requires id in t
    ensures var b, u := Dequeue(c, t, scan, worker, types, limit, now), Sweep(c, t, now);
            && id in b.table
            && b.table[id] == if id in b.ids then u[id].(status := Processing, startedAt := Some(now), worker := Some(worker)) else u[id]
  {
    hide Swept, Select;
  }

  /** The rows are claimed by descending priority and, among equals, by age; so are those left behind. */
  predicate NotAfter(a: Row, b: Row) {
    a.priority > b.priority || (a.priority == b.priority && a.createdAt <= b.createdAt)
  }

  lemma ClaimedInOrder(c: Limits, t: Table, scan: seq<string>, worker: string, types: seq<string>, limit: int, now: real)
    requires Enumerates(scan, t)
    ensures var ids, u := Dequeue(c, t, scan, worker, types, limit, now).ids, Sweep(c, t, now);
            && (forall id :: id in ids ==> id in u && u[id].status == Queued && u[id].kind in types)
            && (forall i, j :: 0 <= i < j < |ids| ==> NotAfter(u[ids[i]], u[ids[j]]))
            && (forall id, other :: id in ids && other in u && u[other].status == Queued && u[other].kind in types && other !in ids ==>
                  NotAfter(u[id], u[other]))
            && ((limit < 0 || |ids| < limit) ==> forall id :: id in u && u[id].status == Queued && u[id].kind in types ==> id in ids)
  {
    hide Dequeue, Sweep;
    ClaimsTheFirst(c, t, scan, worker, types, limit, now);
  }

  // --- a dead worker's job is handed out again ------------------------------------------------

  /** A claimed row that no call has touched: still leased, or given back. */
  ghost predicate StillOwed(r: Row, first: Row) {
    r == first || r == GivenBack(first)
  }

  /** The row as a claim leaves it, with a retry left and time to live until `later`. */
  ghost predicate Retryable(first: Row, since: real, later: real) {
    first.status == Processing && first.startedAt == Some(since) && first.retryCount < first.maxRetries && !Past(first, later)
  }

  /** A call, other than a dequeue, about this job. */
  predicate About(e: Timed, id: string) { !e.call.Take? && e.call.id == id }

  lemma StaysOwed(c: Limits, t: Table, e: Timed, id: string, first: Row, since: real, later: real)
    requires id in t && StillOwed(t[id], first) && Retryable(first, since, later) && e.now <= later
    requires !About(e, id) && ClaimsIn(c, t, e, id) == 0
    ensures id in Apply(c, t, e) && StillOwed(Apply(c, t, e)[id], first)
  {
    hide Dequeue, Sweep;
    if e.call.Take? {
      ClaimFate(c, t, e.call.scan, e.call.worker, e.call.types, e.call.limit, e.now, id);
      SweepFate(c, t, id, e.now);
    }
  }

  lemma {:induction false} OwedUntil(c: Limits, calls: seq<Timed>, id: string, i: nat, n: nat, later: real)
    requires Monotone(calls) && i < n <= |calls| && id in Run(c, calls[..i + 1])
    requires Retryable(Run(c, calls[..i + 1])[id], calls[i].now, later) && forall k :: i < k < n ==> calls[k].now <= later
    requires forall k :: i < k < n ==> !About(calls[k], id) && id !in ClaimsAt(c, calls, k)
    ensures id in Run(c, calls[..n]) && StillOwed(Run(c, calls[..n])[id], Run(c, calls[..i + 1])[id])
    decreases n
  {
    hide Apply, Dequeue, Retryable;
    if i + 1 < n {
      OwedUntil(c, calls, id, i, n - 1, later);
      assert calls[..n][..n - 1] == calls[..n - 1];
      assert ClaimsIn(c, Run(c, calls[..n - 1]), calls[n - 1], id) == 0;
      StaysOwed(c, Run(c, calls[..n - 1]), calls[n - 1], id, Run(c, calls[..i + 1])[id], calls[i].now, later);
    }
  }

  /** The eligible rows that are not behind this one in the order. */
  function Rivals(u: Table, types: seq<string>, id: string): set<string>
    requires id in u
  {
    set x | x in u && x != id && Eligible(u[x], types) && !Ahead(u[id], u[x])
  }

  /** A queued row of a wanted type is claimed if the limit leaves room for it behind its rivals. */
  lemma RoomForIt(c: Limits, t: Table, scan: seq<string>, worker: string, types: seq<string>, limit: int, now: real, id: string)
    requires Enumerates(scan, t) && id in Sweep(c, t, now) && Eligible(Sweep(c, t, now)[id], types)
    requires limit < 0 || |Rivals(Sweep(c, t, now), types, id)| < limit
    ensures id in Dequeue(c, t, scan, worker, types, limit, now).ids
  {
    hide Dequeue, Sweep, Ahead;
    ClaimsTheFirst(c, t, scan, worker, types, limit, now);
    var ids, u := Dequeue(c, t, scan, worker, types, limit, now).ids, Sweep(c, t, now);
    if id !in ids {
      assert |ids| >= limit >= 0;
      DistinctSize(ids, Rivals(u, types, id));
    }
  }

  lemma {:induction false} DistinctSize(ids: seq<string>, all: set<string>)
    requires Distinct(ids) && forall x :: x in ids ==> x in all
    ensures |ids| <= |all|
  {
    if ids != [] {
      var n := |ids| - 1;
      forall x | x in ids[..n]
        ensures x in all - {ids[n]}
      {
        assert x in ids;
      }
      DistinctSize(ids[..n], all - {ids[n]});
    }
  }

  /**
   The converse of lease exclusivity: a job whose worker has died, with a retry and time to live
   left, is claimed again by the next dequeue of its type that comes more than the claim timeout
   after the claim and has room for it.
   */
  lemma DeadWorkersJobIsClaimedAgain(c: Limits, calls: seq<Timed>, id: string, i: nat, j: nat)
    requires Monotone(calls) && i < j < |calls| && id in ClaimsAt(c, calls, i) && id in Run(c, calls[..i + 1])
    requires forall k :: i < k < j ==> !About(calls[k], id) && id !in ClaimsAt(c, calls, k)
    requires var first := Run(c, calls[..i + 1])[id]; first.retryCount < first.maxRetries && !Past(first, calls[j].now)
    requires calls[j].call.Take? && Enumerates(calls[j].call.scan, Run(c, calls[..j])) && calls[j].now - calls[i].now > c.claimTimeout
    requires Run(c, calls[..i + 1])[id].kind in calls[j].call.types
    requires var u := Sweep(c, Run(c, calls[..j]), calls[j].now);
             id in u ==> calls[j].call.limit < 0 || |Rivals(u, calls[j].call.types, id)| < calls[j].call.limit
    ensures id in ClaimsAt(c, calls, j)
  {
    hide Dequeue, Sweep, Run;
    var first, t, e := Run(c, calls[..i + 1])[id], Run(c, calls[..j]), calls[j];
    ClaimedRow(c, calls, id, i);
    OwedUntil(c, calls, id, i, j, e.now);
    SweepFate(c, t, id, e.now);
    RoomForIt(c, t, e.call.scan, e.call.worker, e.call.types, e.call.limit, e.now, id);
  }

  /** The row of a job that has just been claimed. */
  lemma ClaimedRow(c: Limits, calls: seq<Timed>, id: string, i: nat)
    requires i < |calls| && id in ClaimsAt(c, calls, i) && id in Run(c, calls[..i + 1])
    ensures var first := Run(c, calls[..i + 1])[id]; first.status == Processing && first.startedAt == Some(calls[i].now)
  {
    hide Dequeue, Sweep;
    var e, t := calls[i], Run(c, calls[..i]);
    assert calls[..i + 1][..i] == calls[..i];
    ClaimsWhatIsThere(c, t, e.call.scan, e.call.worker, e.call.types, e.call.limit, e.now);
    ClaimFate(c, t, e.call.scan, e.call.worker, e.call.types, e.call.limit, e.now, id);
  }

  lemma ClaimsWhatIsThere(c: Limits, t: Table, scan: seq<string>, worker: string, types: seq<string>, limit: int, now: real)
    ensures forall id :: id in Dequeue(c, t, scan, worker, types, limit, now).ids ==> id in t
  {
    SelectsQueued(Sweep(c, t, now), scan, types, limit);
  }

  // --- what the other calls store -------------------------------------------------------------------

  /** A submission is stored when there is room, with its own expiry or the default one, if there is a default. */
  lemma SubmissionStored(c: Limits, t: Table, id: string, job: Row, now: real)
    ensures var a := Enqueue(c, t, id, job, now);
            && (a.ok <==> |LiveIds(t)| < c.maxSize)
            && (!a.ok ==> a.table == t)
            && (a.ok ==> a.table == t[id := job.(worker := None, expiresAt :=
                  if job.expiresAt.Some? then job.expiresAt else if c.ttl == 0.0 then None else Some(now + c.ttl))])
  {
  }

  /**
   The calls about one job: completion, failure and requeueing whatever its status, cancellation
   only of a live one. A failure without retry is FAILED, one whose retries are used up a dead letter.
   */
  lemma SettlementStored(t: Table, id: string, text: string, retry: bool, retryCount: int, failure: Option<string>, now: real)
    requires id in t
    ensures var r := t[id];
            && Complete(t, id, text, now) == Answer(t[id := r.(status := Completed, completedAt := Some(now), result := Some(text))], true)
            && Requeue(t, id, retryCount, failure) == t[id := r.(status := Queued, startedAt := None, worker := None, retryCount := retryCount, error := failure)]
            && Fail(t, id, text, retry, now).ok
            && Fail(t, id, text, retry, now).table == t[id :=
                 if retry && r.retryCount < r.maxRetries then GivenBack(r).(error := Some(text))
                 else if retry then r.(status := DeadLetter, completedAt := Some(now), error := Some(text))
                 else r.(status := Failed, completedAt := Some(now), error := Some(text))]
            && Cancel(t, id) == (if r.status == Queued || r.status == Processing then Answer(t[id := r.(status := Cancelled)], true) else Answer(t, false))
  {
  }

  /** None of them does anything about a job that is not there. */
  lemma MissingIsLeftAlone(t: Table, id: string, text: string, retry: bool, retryCount: int, failure: Option<string>, now: real)
    requires id !in t
    ensures Complete(t, id, text, now) == Answer(t, false) == Fail(t, id, text, retry, now) == Cancel(t, id)
    ensures Requeue(t, id, retryCount, failure) == t
  {
  }
}
