/**
 The in-memory job queue: tenants, priority lanes, processing, completed and dead-letter
 containers, and the effect of every call on them. Calls are atomic (no call suspends inside
 a critical section) and read the clock once. `History` is kept by the model only.
 */
module MemoryQueue {
  import opened Wrappers
  import opened Dictionaries
  import opened Jobs

  datatype Priority = Low | Normal | High | Critical

  /** `tenant` is empty for a job without a tenant; the source treats None and "" alike. */
  datatype Job = Job(
    id: string, kind: string, tenant: string, priority: int, status: Status,
    startedAt: Option<real>, completedAt: Option<real>, expiresAt: Option<real>,
    retryCount: int, maxRetries: int, result: Option<string>, error: Option<string>, attempts: seq<real>)

  predicate Expired(j: Job, now: real) {
    j.expiresAt.Some? && now > j.expiresAt.value
  }

  /** An unknown priority defaults to NORMAL. */
  function Level(priority: int): Priority {
    if priority == 0 then Low else if priority == 100 then High else if priority == 200 then Critical else Normal
  }

  function Value(p: Priority): int {
    match p case Low => 0 case Normal => 50 case High => 100 case Critical => 200
  }

  datatype Lanes = Lanes(low: seq<Job>, normal: seq<Job>, high: seq<Job>, critical: seq<Job>) {
    function Get(p: Priority): seq<Job> {
      match p case Low => low case Normal => normal case High => high case Critical => critical
    }

    function Put(p: Priority, jobs: seq<Job>): Lanes {
      match p
      case Low => this.(low := jobs)
      case Normal => this.(normal := jobs)
      case High => this.(high := jobs)
      case Critical => this.(critical := jobs)
    }
  }

  const NO_LANES := Lanes([], [], [], [])

  function Size(l: Lanes): nat { |l.low| + |l.normal| + |l.high| + |l.critical| }

  function Length(jobs: seq<Job>): nat { |jobs| }

  /** Where a job that was accepted is now, or how it left. */
  datatype Place =
    | InLane(tenant: string, level: Priority)
    | InProcessing
    | InCompleted
    | InDead(tenant: string)
    | Held                 // in the hands of the call being executed
    | TimedOut             // purged by its TTL
    | Pruned               // dropped from the completed cache

  datatype Stats = Stats(
    enqueued: nat, dequeued: nat, completed: nat, failed: nat, deadLettered: nat,
    cancelled: nat, expired: nat, rejectedFull: nat)

  datatype History = History(
    place: map<string, Place>,
    retried: nat, pruned: nat,
    cancelledQueued: nat, cancelledRunning: nat, cancelledDone: nat,
    granted: nat)          // the work that accepted submissions brought in

  datatype Store = Store(
    queues: Dict<string, Lanes>, processing: map<string, Job>, dead: Dict<string, seq<Job>>,
    completed: map<string, Job>, stats: Stats, log: History)

  datatype Settings = Settings(maxSize: int, ttl: real)

  function New(): Store {
    Store(Empty(), map[], Empty(), map[], Stats(0, 0, 0, 0, 0, 0, 0, 0), History(map[], 0, 0, 0, 0, 0, 0))
  }

  function KeyOf(tenant: string): string { if tenant == "" then "default" else tenant }

  function LanesAt(queues: Dict<string, Lanes>, key: string): Lanes {
    if queues.Has(key) then queues.Get(key) else NO_LANES
  }

  function DeadAt(dead: Dict<string, seq<Job>>, key: string): seq<Job> {
    if dead.Has(key) then dead.Get(key) else []
  }

  /** `_get_queue` creates the lanes of a tenant on first use. */
  function WithTenant(s: Store, key: string): Store {
    s.(queues := s.queues.Put(key, LanesAt(s.queues, key)))
  }

  function TotalQueued(s: Store): nat {
    Sum(s.queues, Size)
  }

  /** `_total_queued`: a job without a tenant is measured against every tenant's jobs together. */
  function Load(s: Store, tenant: string): nat {
    if tenant != "" then Size(LanesAt(s.queues, tenant)) else TotalQueued(s)
  }

  // --- moves between containers ---------------------------------------------

  function SetLane(s: Store, key: string, p: Priority, jobs: seq<Job>): Store {
    s.(queues := s.queues.Put(key, LanesAt(s.queues, key).Put(p, jobs)))
  }

  function Mark(s: Store, id: string, at: Place): Store {
    s.(log := s.log.(place := s.log.place[id := at]))
  }

  function Append(s: Store, j: Job): Store {
    var key, p := KeyOf(j.tenant), Level(j.priority);
    Mark(SetLane(s, key, p, LanesAt(s.queues, key).Get(p) + [j]), j.id, InLane(key, p))
  }

  function Without(jobs: seq<Job>, i: nat): seq<Job>
    requires i < |jobs|
  {
    jobs[..i] + jobs[i + 1..]
  }

  function Withdraw(s: Store, key: string, p: Priority, i: nat): Store
    requires i < |LanesAt(s.queues, key).Get(p)|
  {
    var lane := LanesAt(s.queues, key).Get(p);
    Mark(SetLane(s, key, p, Without(lane, i)), lane[i].id, Held)
  }

  function Start(s: Store, j: Job): Store {
    Mark(s.(processing := s.processing[j.id := j]), j.id, InProcessing)
  }

  function StopProcessing(s: Store, id: string): Store {
    Mark(s.(processing := s.processing - {id}), id, Held)
  }

  function Keep(s: Store, j: Job): Store {
    Mark(s.(completed := s.completed[j.id := j]), j.id, InCompleted)
  }

  function Uncomplete(s: Store, id: string): Store {
    Mark(s.(completed := s.completed - {id}), id, Held)
  }

  function Bury(s: Store, j: Job): Store {
    var key := KeyOf(j.tenant);
    Mark(s.(dead := s.dead.Put(key, DeadAt(s.dead, key) + [j])), j.id, InDead(key))
  }

  function Unexpired(jobs: seq<Job>, now: real): seq<Job> {
    if jobs == [] then []
    else
      var n := |jobs| - 1;
      Unexpired(jobs[..n], now) + (if Expired(jobs[n], now) then [] else [jobs[n]])
  }

  function Ids(jobs: seq<Job>): set<string> {
    set j | j in jobs :: j.id
  }

  /** The jobs of one lane that are past their TTL. */
  function Overdue(jobs: seq<Job>, now: real): set<string> {
    set j | j in jobs && Expired(j, now) :: j.id
  }

  /** The purge of one lane. */
  function Purge(s: Store, key: string, p: Priority, now: real): Store {
    var lane := LanesAt(s.queues, key).Get(p);
    var kept := Unexpired(lane, now);
    var t := SetLane(s, key, p, kept);
    t.(stats := s.stats.(expired := s.stats.expired + Dropped(lane, now)),
       log := s.log.(place := s.log.place + map id | id in Overdue(lane, now) :: TimedOut))
  }

  function Dropped(jobs: seq<Job>, now: real): nat {
    if jobs == [] then 0
    else
      var n := |jobs| - 1;
      Dropped(jobs[..n], now) + (if Expired(jobs[n], now) then 1 else 0)
  }

  function StaleIds(completed: map<string, Job>, now: real): set<string> {
    set id | id in completed && completed[id].expiresAt.Some? && completed[id].expiresAt.value < now
  }

  /** `_prune_completed`. */
  function Prune(s: Store, now: real): Store {
    var stale := StaleIds(s.completed, now);
    s.(completed := s.completed - stale,
       log := s.log.(pruned := s.log.pruned + |stale|,
                     place := s.log.place + map id | id in stale :: Pruned))
  }

  // --- the calls --------------------------------------------------------------

  datatype Admission = Admission(store: Store, job: Job, accepted: bool)

  /** The TTL a job gets when it has none, and the priority it gets when its own is unknown. */
  function Stamped(c: Settings, j: Job, now: real): Job {
    if j.expiresAt.None? then j.(expiresAt := Some(now + c.ttl)) else j
  }

  function Normalised(j: Job): Job {
    j.(priority := Value(Level(j.priority)))
  }

  function Accept(s: Store, j: Job): Store {
    var t := Append(s, j);
    t.(stats := t.stats.(enqueued := t.stats.enqueued + 1))
  }

  function Reject(s: Store): Store {
    s.(stats := s.stats.(rejectedFull := s.stats.rejectedFull + 1))
  }

  /** `enqueue`. */
  function Enqueue(c: Settings, s: Store, job: Job, now: real): Admission {
    var j := Stamped(c, job, now);
    if Expired(j, now) then Admission(s, j, false)
    else
      var k := Normalised(j);
      var t := if k.tenant != "" then WithTenant(s, k.tenant) else s;
      if Load(s, k.tenant) >= c.maxSize then Admission(Reject(t), k, false) else Admission(Accept(t, k), k, true)
  }

  /** The index of the first job a worker for `types` may take; no types means any type. */
  function FirstMatch(jobs: seq<Job>, types: seq<string>): nat {
    if jobs == [] then 0
    else if types == [] || jobs[0].kind in types then 0
    else 1 + FirstMatch(jobs[1..], types)
  }

  const LEVELS: seq<Priority> := [Critical, High, Normal, Low]

  /** The job a scan has settled on: the level and position it is queued at. */
  datatype Choice = Choice(key: string, level: Priority, index: nat)

  datatype Scan = Scan(store: Store, choice: Option<Choice>)

  /** One tenant's lanes, from the `k`-th level down: purge, then look for a match. */
  function ScanLanes(s: Store, key: string, k: nat, types: seq<string>, now: real): Scan
    requires k <= 4
    decreases 4 - k
  {
    if k == 4 then Scan(s, None)
    else
      var t := Purge(s, key, LEVELS[k], now);
      var lane := LanesAt(t.queues, key).Get(LEVELS[k]);
      var i := FirstMatch(lane, types);
      if i < |lane| then Scan(t, Some(Choice(key, LEVELS[k], i))) else ScanLanes(t, key, k + 1, types, now)
  }

  /** The tenants in turn; the scan stops at the first tenant that has a match. */
  function ScanTenants(s: Store, order: seq<string>, types: seq<string>, now: real): Scan
    decreases |order|
  {
    if order == [] then Scan(s, None)
    else
      var scan := ScanLanes(WithTenant(s, order[0]), order[0], 0, types, now);
      if scan.choice.Some? then scan else ScanTenants(scan.store, order[1..], types, now)
  }

  ghost predicate Chosen(s: Store, c: Choice) {
    c.index < |LanesAt(s.queues, c.key).Get(c.level)|
  }

  function Begun(j: Job, now: real): Job {
    j.(status := Processing, startedAt := Some(now), attempts := j.attempts + [now])
  }

  /** Claims the chosen job. */
  function Claim(s: Store, c: Choice, now: real): Store
    requires c.index < |LanesAt(s.queues, c.key).Get(c.level)|
  {
    var j := LanesAt(s.queues, c.key).Get(c.level)[c.index];
    var t := Start(Withdraw(s, c.key, c.level, c.index), Begun(j, now));
    t.(stats := t.stats.(dequeued := t.stats.dequeued + 1))
  }

  lemma FirstMatchFound(jobs: seq<Job>, types: seq<string>)
    ensures var i := FirstMatch(jobs, types);
            && i <= |jobs|
            && (i < |jobs| ==> types == [] || jobs[i].kind in types)
            && forall k :: 0 <= k < i ==> types != [] && jobs[k].kind !in types
  {
    if jobs != [] && types != [] && jobs[0].kind !in types {
      FirstMatchFound(jobs[1..], types);
    }
  }

  lemma {:induction false} ScanLanesChooses(s: Store, key: string, k: nat, types: seq<string>, now: real)
    requires k <= 4
    ensures var r := ScanLanes(s, key, k, types, now); r.choice.Some? ==> Chosen(r.store, r.choice.value)
    decreases 4 - k
  {
    if k < 4 {
      ScanLanesChooses(Purge(s, key, LEVELS[k], now), key, k + 1, types, now);
    }
  }

  lemma {:induction false} ScanChooses(s: Store, order: seq<string>, types: seq<string>, now: real)
    ensures var r := ScanTenants(s, order, types, now); r.choice.Some? ==> Chosen(r.store, r.choice.value)
    decreases |order|
  {
    if order != [] {
      ScanLanesChooses(WithTenant(s, order[0]), order[0], 0, types, now);
      ScanChooses(ScanLanes(WithTenant(s, order[0]), order[0], 0, types, now).store, order[1..], types, now);
    }
  }

  datatype Taken = Taken(store: Store, jobs: seq<Job>)

  /** `dequeue`: up to `max` jobs; `order` is the order in which the set of tenants is iterated. */
  function Dequeue(s: Store, order: seq<string>, types: seq<string>, max: nat, now: real): Taken
    decreases max
  {
    if max == 0 then Taken(s, [])
    else
      var scan := ScanTenants(s, order, types, now);
      ScanChooses(s, order, types, now);
      if scan.choice.None? then Taken(scan.store, [])
      else
        var c := scan.choice.value;
        var rest := Dequeue(Claim(scan.store, c, now), order, types, max - 1, now);
        Taken(rest.store, [Begun(LanesAt(scan.store.queues, c.key).Get(c.level)[c.index], now)] + rest.jobs)
  }

  datatype Reply = Reply(store: Store, ok: bool)

  /** `complete`. */
  function Complete(s: Store, id: string, result: string, now: real): Reply {
    if id !in s.processing then Reply(s, false)
    else
      var j := s.processing[id].(status := Completed, completedAt := Some(now), result := Some(result));
      var t := Keep(StopProcessing(s, id), j);
      Reply(Prune(t.(stats := t.stats.(completed := t.stats.completed + 1)), now), true)
  }

  function ForRetry(c: Settings, j: Job, now: real): Job {
    j.(status := Queued, retryCount := j.retryCount + 1, error := None, expiresAt := Some(now + c.ttl))
  }

  function Died(j: Job, now: real): Job {
    j.(status := DeadLetter, completedAt := Some(now))
  }

  function BuryFailed(s: Store, j: Job): Store {
    var t := Bury(s, j);
    t.(stats := t.stats.(failed := t.stats.failed + 1, deadLettered := t.stats.deadLettered + 1))
  }

  /** `fail`, with `requeue` inlined: a job that cannot be requeued is buried, never lost. */
  function Fail(c: Settings, s: Store, id: string, error: string, retry: bool, now: real): Reply {
    if id !in s.processing then Reply(s, false)
    else
      var j := s.processing[id].(error := Some(error));
      var t := StopProcessing(s, id);
      if retry && j.retryCount < j.maxRetries then
        var a := Enqueue(c, t, ForRetry(c, j, now), now);
        if a.accepted then Reply(a.store.(log := a.store.log.(retried := a.store.log.retried + 1)), true)
        else Reply(BuryFailed(a.store, Died(a.job, now)), true)
      else Reply(BuryFailed(t, Died(j, now)), true)
  }

  function Void(j: Job, now: real): Job {
    j.(status := Cancelled, completedAt := Some(now))
  }

  function IndexOf(jobs: seq<Job>, id: string): nat {
    if jobs == [] then 0 else if jobs[0].id == id then 0 else 1 + IndexOf(jobs[1..], id)
  }

  /** The order in which a tenant's lanes are searched by `cancel`. */
  const ASCENDING: seq<Priority> := [Low, Normal, High, Critical]

  function FindInLanes(lanes: Lanes, key: string, k: nat, id: string): Option<Choice>
    requires k <= 4
    decreases 4 - k
  {
    if k == 4 then None
    else
      var i := IndexOf(lanes.Get(ASCENDING[k]), id);
      if i < |lanes.Get(ASCENDING[k])| then Some(Choice(key, ASCENDING[k], i)) else FindInLanes(lanes, key, k + 1, id)
  }

  function FindQueued(s: Store, order: seq<string>, id: string): Option<Choice> {
    if order == [] then None
    else
      var here := FindInLanes(LanesAt(s.queues, order[0]), order[0], 0, id);
      if here.Some? then here else FindQueued(s, order[1..], id)
  }

  function CountCancelled(s: Store): Store {
    s.(stats := s.stats.(cancelled := s.stats.cancelled + 1))
  }

  lemma {:induction false} FindInLanesChooses(lanes: Lanes, key: string, k: nat, id: string)
    requires k <= 4
    ensures var r := FindInLanes(lanes, key, k, id);
            r.Some? ==> r.value.key == key && r.value.index < |lanes.Get(r.value.level)| && lanes.Get(r.value.level)[r.value.index].id == id
    decreases 4 - k
  {
    if k < 4 {
      IndexOfFound(lanes.Get(ASCENDING[k]), id);
      FindInLanesChooses(lanes, key, k + 1, id);
    }
  }

  lemma IndexOfFound(jobs: seq<Job>, id: string)
    ensures var i := IndexOf(jobs, id);
            i <= |jobs| && (i < |jobs| ==> jobs[i].id == id) && forall k :: 0 <= k < i ==> jobs[k].id != id
  {
    if jobs != [] && jobs[0].id != id {
      IndexOfFound(jobs[1..], id);
    }
  }

  lemma {:induction false} FindQueuedChooses(s: Store, order: seq<string>, id: string)
    ensures var r := FindQueued(s, order, id);
            r.Some? ==> Chosen(s, r.value) && LanesAt(s.queues, r.value.key).Get(r.value.level)[r.value.index].id == id
  {
    if order != [] {
      FindInLanesChooses(LanesAt(s.queues, order[0]), order[0], 0, id);
      FindQueuedChooses(s, order[1..], id);
    }
  }

  /** `cancel`: a running job, a queued one, and even a completed one. */
  function Cancel(s: Store, id: string, now: real): Reply {
    var queued := FindQueued(s, s.queues.keys, id);
    FindQueuedChooses(s, s.queues.keys, id);
    if id in s.processing then
      var t := CountCancelled(Bury(StopProcessing(s, id), Void(s.processing[id], now)));
      Reply(t.(log := t.log.(cancelledRunning := t.log.cancelledRunning + 1)), true)
    else if queued.Some? then
      var c := queued.value;
      var j := LanesAt(s.queues, c.key).Get(c.level)[c.index];
      var t := CountCancelled(Bury(Withdraw(s, c.key, c.level, c.index), Void(j, now)));
      Reply(t.(log := t.log.(cancelledQueued := t.log.cancelledQueued + 1)), true)
    else if id in s.completed then
      var t := CountCancelled(Bury(Uncomplete(s, id), Void(s.completed[id], now)));
      Reply(t.(log := t.log.(cancelledDone := t.log.cancelledDone + 1)), true)
    else Reply(s, false)
  }
}
