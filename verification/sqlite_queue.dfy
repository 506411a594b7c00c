/**
 `SQLiteQueueBackend` in its own form: statements that update the jobs table, one method a call.
 Every method refines the corresponding function of `SqliteQueue`.
 */
module SqliteBackend {
  import opened Wrappers
  import opened Jobs
  import S = SqliteQueue
  import opened SqliteQueue
  import SqliteLeases

  class SqliteBackendQueue {
    const c: Limits
    var rows: Table

    constructor (c: Limits)
      ensures this.c == c && rows == map[]
    {
      this.c := c;
      rows := map[];
    }

    /** `enqueue`; the job comes back with the expiry it was given. */
    method Enqueue(id: string, submitted: Row, now: real) returns (ok: bool, job: Row)
      modifies this
      ensures Answer(rows, ok) == S.Enqueue(c, old(rows), id, submitted, now)
      ensures job == if submitted.expiresAt.None? && c.ttl != 0.0 then submitted.(expiresAt := Some(now + c.ttl)) else submitted
    {
      job := submitted;
      if job.expiresAt.None? && c.ttl != 0.0 {
        job := job.(expiresAt := Some(now + c.ttl));
      }
      var count := |LiveIds(rows)|;
      if count >= c.maxSize {
        return false, job;
      }
      rows := rows[id := job.(worker := None)];
      ok := true;
    }

    /** Step 1 of `dequeue`: the rows whose lease is over are read first and updated one by one. */
    method ReclaimDead(now: real)
      modifies this
      ensures rows == map id | id in old(rows) :: if LeaseOver(c, old(rows)[id], now) then Reclaimed(old(rows)[id]) else old(rows)[id]
    {
      var dead := set id | id in rows && LeaseOver(c, rows[id], now);
      var left := dead;
      while left != {}
        invariant left <= dead && rows.Keys == old(rows).Keys
        invariant forall id :: id in rows ==>
                    rows[id] == if id in dead && id !in left then Reclaimed(old(rows)[id]) else old(rows)[id]
        decreases |left|
      {
        var id :| id in left;
        var r := rows[id];
        if r.retryCount < r.maxRetries {
          rows := rows[id := r.(status := Queued, startedAt := None, worker := None, retryCount := r.retryCount + 1)];
        } else {
          rows := rows[id := r.(status := DeadLetter, error := Some("Claim lease expired (worker timeout/death)"))];
        }
        left := left - {id};
      }
    }

    /** Step 2: one UPDATE over all queued rows past their TTL. */
    method ExpireQueued(now: real)
      modifies this
      ensures rows == map id | id in old(rows) :: if Outdated(old(rows)[id], now) then TimedOutRow(old(rows)[id]) else old(rows)[id]
    {
      rows := map id | id in rows :: if Outdated(rows[id], now) then TimedOutRow(rows[id]) else rows[id];
    }

    /** Step 3: every selected row that is still queued is claimed. */
    method ClaimRows(ids: seq<string>, worker: string, now: real) returns (claimed: seq<Row>)
      requires SqliteLeases.Distinct(ids) && forall id :: id in ids ==> id in rows && rows[id].status == Queued
      modifies this
      ensures rows == Claim(old(rows), ids, worker, now)
      ensures |claimed| == |ids| && forall k :: 0 <= k < |ids| ==> ids[k] in rows && claimed[k] == rows[ids[k]]
    {
      hide Claimed;
      claimed := [];
      for k := 0 to |ids|
        invariant rows.Keys == old(rows).Keys
        invariant forall id :: id in rows ==> rows[id] == if id in ids[..k] then Claimed(old(rows)[id], worker, now) else old(rows)[id]
        invariant |claimed| == k && forall j :: 0 <= j < k ==> claimed[j] == Claimed(old(rows)[ids[j]], worker, now)
      {
        var id := ids[k];
        assert id in ids && id !in ids[..k];
        assert ids[..k + 1] == ids[..k] + [id];
        if rows[id].status == Queued {
          rows := rows[id := Claimed(rows[id], worker, now)];
          claimed := claimed + [rows[id]];
        }
      }
      assert ids[..|ids|] == ids;
      forall k | 0 <= k < |ids|
        ensures claimed[k] == rows[ids[k]]
      {
        assert ids[k] in ids;
      }
    }

    /** `dequeue`; `scan` is the order in which the database enumerates its rows. */
    method Dequeue(scan: seq<string>, worker: string, types: seq<string>, limit: int, now: real) returns (claimed: seq<Row>)
      requires SqliteLeases.Enumerates(scan, rows)
      modifies this
      ensures var b := S.Dequeue(c, old(rows), scan, worker, types, limit, now);
              && rows == b.table && |claimed| == |b.ids|
              && forall k :: 0 <= k < |b.ids| ==> b.ids[k] in rows && claimed[k] == rows[b.ids[k]]
    {
      hide LeaseOver, Reclaimed, Outdated, TimedOutRow, Select, Claim;
      ReclaimDead(now);
      ExpireQueued(now);
      assert rows == Sweep(c, old(rows), now);
      var ids := Select(rows, scan, types, limit);
      SqliteLeases.ClaimsTheFirst(c, old(rows), scan, worker, types, limit, now);
      claimed := ClaimRows(ids, worker, now);
    }

    /** `requeue`. */
    method Requeue(id: string, retryCount: int, error: Option<string>)
      modifies this
      ensures rows == S.Requeue(old(rows), id, retryCount, error)
    {
      if id in rows {
        rows := rows[id := rows[id].(status := Queued, startedAt := None, worker := None, retryCount := retryCount, error := error)];
      }
    }

    /** `complete`. */
    method Complete(id: string, result: string, now: real) returns (ok: bool)
      modifies this
      ensures Answer(rows, ok) == S.Complete(old(rows), id, result, now)
    {
      ok := id in rows;
      if ok {
        rows := rows[id := rows[id].(status := Completed, completedAt := Some(now), result := Some(result))];
      }
    }

    /** `fail`. */
    method Fail(id: string, error: string, retry: bool, now: real) returns (ok: bool)
      modifies this
      ensures Answer(rows, ok) == S.Fail(old(rows), id, error, retry, now)
    {
      if id !in rows {
        return false;
      }
      var retries, maxRetries := rows[id].retryCount, rows[id].maxRetries;
      if retry && retries < maxRetries {
        rows := rows[id := rows[id].(status := Queued, startedAt := None, worker := None, retryCount := retries + 1, error := Some(error))];
      } else {
        var final := if retry then DeadLetter else Failed;
        rows := rows[id := rows[id].(status := final, completedAt := Some(now), error := Some(error))];
      }
      ok := true;
    }

    /** `cancel`. */
    method Cancel(id: string) returns (ok: bool)
      modifies this
      ensures Answer(rows, ok) == S.Cancel(old(rows), id)
    {
      ok := id in rows && (rows[id].status == Queued || rows[id].status == Processing);
      if ok {
        rows := rows[id := rows[id].(status := Cancelled)];
      }
    }
  }
}
