/**
 The idempotency protocol: one record a key, checked, saved and deleted by the requests that
 carry the key. `check_idempotency` is one step and reads the clock once; the request hash is an
 input.
 */
module Idempotency {
  import opened Wrappers

  datatype Phase = Processing | Completed | Failed

  type Headers = map<string, string>

  datatype Response = Response(body: string, status: int, headers: Headers)

  datatype Record = Record(
    caller: string, operation: string, hash: string, body: string,
    response: Option<Response>, phase: Phase, createdAt: real, completedAt: Option<real>, expiresAt: Option<real>)

  type Store = map<string, Record>

  datatype Request = Request(key: string, caller: string, operation: string, hash: string, body: string)

  predicate Expired(r: Record, now: real) {
    r.expiresAt.Some? && r.expiresAt.value < now
  }

  /** `get` deletes an expired record. */
  function AfterGet(s: Store, key: string, now: real): Store {
    if key in s && Expired(s[key], now) then s - {key} else s
  }

  function Pending(q: Request, ttl: real, now: real): Record {
    Record(q.caller, q.operation, q.hash, q.body, None, Processing, now, None, Some(now + ttl))
  }

  datatype Answer = Granted | Replayed(response: Option<Response>) | Conflict(operation: string) | StillProcessing

  datatype Outcome = Outcome(store: Store, answer: Answer)

  const REPLAY: string := "X-Idempotency-Replay"

  function Marked(h: Headers): Headers { h[REPLAY := "true"] }

  /** The replay header goes into the stored headers themselves, unless there are none. */
  function AfterReplay(r: Record): Record {
    if r.response.Some? && r.response.value.headers != map[] then
      r.(response := Some(r.response.value.(headers := Marked(r.response.value.headers))))
    else r
  }

  /** `check_idempotency`. */
  function Check(s: Store, q: Request, ttl: real, now: real): Outcome {
    var t := AfterGet(s, q.key, now);
    if q.key !in t then Outcome(t[q.key := Pending(q, ttl, now)], Granted)
    else
      var r := t[q.key];
      if r.hash != q.hash then Outcome(t, Conflict(r.operation))
      else
        match r.phase
        case Processing => Outcome(t, StillProcessing)
        case Completed =>
          Outcome(t[q.key := AfterReplay(r)],
                  Replayed(if r.response.Some? then Some(r.response.value.(headers := Marked(r.response.value.headers))) else None))
        case Failed => Outcome(t[q.key := Pending(q, ttl, now)], Granted)
  }

  /** `update`, whoever calls it. */
  function Save(s: Store, key: string, response: Response, phase: Phase, now: real): Store {
    if key !in s then s else s[key := s[key].(response := Some(response), phase := phase, completedAt := Some(now))]
  }

  function Delete(s: Store, key: string): Store { s - {key} }

  /** `cleanup_expired`. */
  function Sweep(s: Store, now: real): Store {
    s - set k | k in s && Expired(s[k], now)
  }

  /** What the middleware does with the response of a granted request. */
  function Settle(s: Store, key: string, response: Response, now: real): Store {
    if response.status < 500 then Save(s, key, response, if response.status < 400 then Completed else Failed, now)
    else Delete(s, key)
  }

  // --- runs --------------------------------------------------------------------------

  datatype Event =
    | Checking(request: Request, now: real)
    | Saving(key: string, response: Response, phase: Phase, now: real)
    | Deleting(key: string, now: real)
    | Sweeping(now: real)

  function Apply(s: Store, e: Event, ttl: real): Store {
    match e
    case Checking(request, now) => Check(s, request, ttl, now).store
    case Saving(key, response, phase, now) => Save(s, key, response, phase, now)
    case Deleting(key, now) => Delete(s, key)
    case Sweeping(now) => Sweep(s, now)
  }

  function Run(events: seq<Event>, ttl: real): Store {
    if events == [] then map[] else Apply(Run(events[..|events| - 1], ttl), events[|events| - 1], ttl)
  }

  /** The answer to the `i`-th event, a check. */
  function AnswerAt(events: seq<Event>, ttl: real, i: nat): Answer
    requires i < |events| && events[i].Checking?
  {
    Check(Run(events[..i], ttl), events[i].request, ttl, events[i].now).answer
  }

  predicate Writes(e: Event, key: string) {
    (e.Saving? || e.Deleting?) && e.key == key
  }
}
