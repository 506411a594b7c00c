/**
 The SQLite job queue: the jobs table as a map of rows and every call as one transaction. `scan`
 is the order in which the database happens to enumerate the rows, which decides ties.
 */
module SqliteQueue {
  import opened Wrappers
  import opened Jobs

  datatype Row = Row(
    kind: string, priority: int, status: Status, createdAt: real,
    startedAt: Option<real>, completedAt: Option<real>, expiresAt: Option<real>,
    retryCount: int, maxRetries: int, tenant: Option<string>,
    result: Option<string>, error: Option<string>, worker: Option<string>)

  type Table = map<string, Row>

  /** A `default_ttl` of zero means none. */
  datatype Limits = Limits(maxSize: int, ttl: real, claimTimeout: real)

  predicate Live(r: Row) { r.status == Queued || r.status == Processing }

  function LiveIds(t: Table): set<string> { set id | id in t && Live(t[id]) }

  // --- enqueue -----------------------------------------------------------------

  datatype Answer = Answer(table: Table, ok: bool)

  function Stored(c: Limits, job: Row, now: real): Row {
    (if job.expiresAt.None? && c.ttl != 0.0 then job.(expiresAt := Some(now + c.ttl)) else job).(worker := None)
  }

  /** `enqueue`: INSERT OR REPLACE, unless the live rows already fill the queue. */
  function Enqueue(c: Limits, t: Table, id: string, job: Row, now: real): Answer {
    if |LiveIds(t)| >= c.maxSize then Answer(t, false) else Answer(t[id := Stored(c, job, now)], true)
  }

  // --- dequeue -----------------------------------------------------------------

  predicate LeaseOver(c: Limits, r: Row, now: real) {
    r.status == Processing && r.startedAt.Some? && r.startedAt.value < now - c.claimTimeout
  }

  function Reclaimed(r: Row): Row {
    if r.retryCount < r.maxRetries then
      r.(status := Queued, startedAt := None, worker := None, retryCount := r.retryCount + 1)
    else r.(status := DeadLetter, error := Some("Claim lease expired (worker timeout/death)"))
  }

  predicate Outdated(r: Row, now: real) {
    r.status == Queued && r.expiresAt.Some? && r.expiresAt.value < now
  }

  function TimedOutRow(r: Row): Row {
    r.(status := DeadLetter, error := Some("Job TTL expired"))
  }

  /** What the first two steps of `dequeue` make of one row: a reclaimed row may expire at once. */
  function Swept(c: Limits, r: Row, now: real): Row {
    var q := if LeaseOver(c, r, now) then Reclaimed(r) else r;
    if Outdated(q, now) then TimedOutRow(q) else q
  }

  function Sweep(c: Limits, t: Table, now: real): Table {
    map id | id in t :: Swept(c, t[id], now)
  }

  /** ORDER BY priority DESC, created_at ASC. */
  predicate Ahead(a: Row, b: Row) {
    a.priority > b.priority || (a.priority == b.priority && a.createdAt < b.createdAt)
  }

  predicate Eligible(r: Row, types: seq<string>) {
    r.status == Queued && r.kind in types
  }

  function Filter(t: Table, scan: seq<string>, types: seq<string>): seq<string> {
    if scan == [] then []
    else
      var n := |scan| - 1;
      Filter(t, scan[..n], types) + (if scan[n] in t && Eligible(t[scan[n]], types) then [scan[n]] else [])
  }

  /** A later row goes in front of the rows it is ahead of, behind its equals. */
  function Insert(t: Table, ids: seq<string>, id: string): seq<string>
    requires id in t && forall x :: x in ids ==> x in t
  {
    if ids == [] then [id]
    else
      var n := |ids| - 1;
      if Ahead(t[id], t[ids[n]]) then Insert(t, ids[..n], id) + [ids[n]] else ids + [id]
  }

  function Sort(t: Table, ids: seq<string>): (r: seq<string>)
    requires forall x :: x in ids ==> x in t
    ensures multiset(r) == multiset(ids)
  {
    if ids == [] then []
    else
      var n := |ids| - 1;
      assert ids == ids[..n] + [ids[n]];
      var rest := Sort(t, ids[..n]);
      assert forall x :: x in rest ==> x in multiset(rest);
      InsertKeeps(t, rest, ids[n]);
      Insert(t, rest, ids[n])
  }

  lemma {:induction false} InsertKeeps(t: Table, ids: seq<string>, id: string)
    requires id in t && forall x :: x in ids ==> x in t
    ensures multiset(Insert(t, ids, id)) == multiset(ids) + multiset{id}
  {
    if ids != [] {
      var n := |ids| - 1;
      assert ids == ids[..n] + [ids[n]];
      InsertKeeps(t, ids[..n], id);
    }
  }

  lemma FilterSelects(t: Table, scan: seq<string>, types: seq<string>)
    ensures forall id :: id in Filter(t, scan, types) <==> id in scan && id in t && Eligible(t[id], types)
  {
    if scan != [] {
      var n := |scan| - 1;
      FilterSelects(t, scan[..n], types);
      assert scan == scan[..n] + [scan[n]];
    }
  }

  /** A negative LIMIT is no limit. */
  function Cut(ids: seq<string>, limit: int): seq<string> {
    if limit < 0 || limit > |ids| then ids else ids[..limit]
  }

  /** The ids the SELECT returns; an empty list of types matches nothing. */
  function Select(t: Table, scan: seq<string>, types: seq<string>, limit: int): seq<string> {
    FilterSelects(t, scan, types);
    Cut(Sort(t, Filter(t, scan, types)), limit)
  }

  function Claimed(r: Row, worker: string, now: real): Row {
    r.(status := Processing, startedAt := Some(now), worker := Some(worker))
  }

  function Claim(t: Table, ids: seq<string>, worker: string, now: real): Table {
    map id | id in t :: if id in ids then Claimed(t[id], worker, now) else t[id]
  }

  datatype Batch = Batch(table: Table, ids: seq<string>)

  /** `dequeue`: reclaim, expire, then claim the first rows in order. */
  function Dequeue(c: Limits, t: Table, scan: seq<string>, worker: string, types: seq<string>, limit: int, now: real): Batch {
    var u := Sweep(c, t, now);
    var ids := Select(u, scan, types, limit);
    Batch(Claim(u, ids, worker, now), ids)
  }

  // --- the other calls -----------------------------------------------------------

  /** `requeue`: the retry count and the error are the caller's. */
  function Requeue(t: Table, id: string, retryCount: int, error: Option<string>): Table {
    if id !in t then t
    else t[id := t[id].(status := Queued, startedAt := None, worker := None, retryCount := retryCount, error := error)]
  }

  /** `complete`, whatever the status. */
  function Complete(t: Table, id: string, result: string, now: real): Answer {
    if id !in t then Answer(t, false)
    else Answer(t[id := t[id].(status := Completed, completedAt := Some(now), result := Some(result))], true)
  }

  /** `fail`, whatever the status. */
  function Fail(t: Table, id: string, error: string, retry: bool, now: real): Answer {
    if id !in t then Answer(t, false)
    else
      var r := t[id];
      if retry && r.retryCount < r.maxRetries then
        Answer(t[id := r.(status := Queued, startedAt := None, worker := None, retryCount := r.retryCount + 1, error := Some(error))], true)
      else
        Answer(t[id := r.(status := if retry then DeadLetter else Failed, completedAt := Some(now), error := Some(error))], true)
  }

  /** `cancel`: live rows only. */
  function Cancel(t: Table, id: string): Answer {
    if id !in t || !Live(t[id]) then Answer(t, false) else Answer(t[id := t[id].(status := Cancelled)], true)
  }

  // --- runs ------------------------------------------------------------------------

  datatype Call =
    | Put(id: string, job: Row)
    | Take(scan: seq<string>, worker: string, types: seq<string>, limit: int)
    | SendBack(id: string, retryCount: int, failure: Option<string>)
    | Finish(id: string, result: string)
    | GiveUp(id: string, error: string, retry: bool)
    | Abort(id: string)

  datatype Timed = Timed(call: Call, now: real)

  function Apply(c: Limits, t: Table, e: Timed): Table {
    match e.call
    case Put(id, job) => Enqueue(c, t, id, job, e.now).table
    case Take(scan, worker, types, limit) => Dequeue(c, t, scan, worker, types, limit, e.now).table
    case SendBack(id, retryCount, failure) => Requeue(t, id, retryCount, failure)
    case Finish(id, result) => Complete(t, id, result, e.now).table
    case GiveUp(id, error, retry) => Fail(t, id, error, retry, e.now).table
    case Abort(id) => Cancel(t, id).table
  }

  function Run(c: Limits, calls: seq<Timed>): Table {
    if calls == [] then map[] else Apply(c, Run(c, calls[..|calls| - 1]), calls[|calls| - 1])
  }

  /** The ids the `i`-th call of a run claims. */
  function ClaimsAt(c: Limits, calls: seq<Timed>, i: nat): seq<string>
    requires i < |calls|
  {
    var e := calls[i];
    if e.call.Take? then
      Dequeue(c, Run(c, calls[..i]), e.call.scan, e.call.worker, e.call.types, e.call.limit, e.now).ids
    else []
  }
}
