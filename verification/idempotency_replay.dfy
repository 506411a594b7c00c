/**
 What the protocol guarantees over whole runs: a grant is exclusive for the time to live, a saved
 response is replayed to the same request and to no other.
 */
module IdempotencyReplay {
  import opened Wrappers
  import opened Idempotency

  ghost predicate Monotone(events: seq<Event>) {
    forall i, j :: 0 <= i < j < |events| ==> events[i].now <= events[j].now
  }

  /** The record of a request as it was granted, and not settled since. */
  ghost predicate Held(s: Store, q: Request, expiry: real) {
    q.key in s && Of(s[q.key], q) && s[q.key].phase == Processing && s[q.key].expiresAt == Some(expiry)
  }

  ghost predicate Of(r: Record, q: Request) {
    r.hash == q.hash && r.operation == q.operation && r.caller == q.caller && r.body == q.body
  }

  lemma HoldsOn(s: Store, e: Event, ttl: real, q: Request, expiry: real)
    requires Held(s, q, expiry) && !Writes(e, q.key) && e.now <= expiry
    ensures Held(Apply(s, e, ttl), q, expiry)
    ensures e.Checking? && e.request.key == q.key ==>
              Check(s, e.request, ttl, e.now).answer == if e.request.hash == q.hash then StillProcessing else Conflict(q.operation)
  {
  }

  lemma {:induction false} HeldAlong(events: seq<Event>, ttl: real, i: nat)
    requires Monotone(events) && ttl >= 0.0 && i < |events| && events[i].Checking? && AnswerAt(events, ttl, i).Granted?
    requires forall k :: i < k < |events| ==> !Writes(events[k], events[i].request.key)
    requires events[|events| - 1].now <= events[i].now + ttl
    ensures Held(Run(events, ttl), events[i].request, events[i].now + ttl)
  {
    hide Apply, Held;
    var n := |events| - 1;
    if i < n {
      assert events[..n][..i] == events[..i];
      HeldAlong(events[..n], ttl, i);
      HoldsOn(Run(events[..n], ttl), events[n], ttl, events[i].request, events[i].now + ttl);
    } else {
      GrantHolds(Run(events[..n], ttl), events[n].request, ttl, events[n].now);
    }
  }

  lemma GrantHolds(s: Store, q: Request, ttl: real, now: real)
    requires Check(s, q, ttl, now).answer.Granted?
    ensures Held(Apply(s, Checking(q, now), ttl), q, now + ttl)
  {
  }

  /**
   Between a grant and the save or delete of its key, no second request with the key is granted
   within the time to live: the same request is told to wait, any other gets a conflict that names
   the operation of the granted one.
   */
  lemma GrantIsExclusive(events: seq<Event>, ttl: real, i: nat, j: nat)
    requires Monotone(events) && ttl >= 0.0 && i < j < |events|
    requires events[i].Checking? && AnswerAt(events, ttl, i).Granted?
    requires events[j].Checking? && events[j].request.key == events[i].request.key && events[j].now <= events[i].now + ttl
    requires forall k :: i < k < j ==> !Writes(events[k], events[i].request.key)
    ensures if events[j].request.hash == events[i].request.hash then AnswerAt(events, ttl, j).StillProcessing?
            else AnswerAt(events, ttl, j) == Conflict(events[i].request.operation)
  {
    hide Run, Check, Held;
    var before := events[..j];
    assert before[..i] == events[..i];
    assert before[|before| - 1].now <= events[j].now;
    HeldAlong(before, ttl, i);
    HoldsOn(Run(before, ttl), events[j], ttl, events[i].request, events[i].now + ttl);
  }

  /** The record of a grant as it was left, or gone after its expiry. */
  ghost predicate HeldOrLapsed(s: Store, q: Request, expiry: real, now: real) {
    Held(s, q, expiry) || (q.key !in s && now > expiry)
  }

  lemma LapsesOn(s: Store, e: Event, ttl: real, q: Request, expiry: real, before: real)
    requires HeldOrLapsed(s, q, expiry, before) && !Writes(e, q.key) && before <= e.now
    ensures e.Checking? && e.request.key == q.key ==> (Check(s, e.request, ttl, e.now).answer.Granted? <==> e.now > expiry)
    ensures !(e.Checking? && e.request.key == q.key && Check(s, e.request, ttl, e.now).answer.Granted?)
      ==> HeldOrLapsed(Apply(s, e, ttl), q, expiry, e.now)
  {
  }

  lemma {:induction false} LapsesAlong(events: seq<Event>, ttl: real, i: nat)
    requires Monotone(events) && i < |events| && events[i].Checking? && AnswerAt(events, ttl, i).Granted?
    requires forall k :: i < k < |events| ==> !Writes(events[k], events[i].request.key)
    requires forall k :: i < k < |events| && events[k].Checking? && events[k].request.key == events[i].request.key ==>
               !AnswerAt(events, ttl, k).Granted?
    ensures HeldOrLapsed(Run(events, ttl), events[i].request, events[i].now + ttl, events[|events| - 1].now)
  {
    hide Apply, HeldOrLapsed, Check;
    var n := |events| - 1;
    if i < n {
      assert events[..n][..i] == events[..i];
      forall k | i < k < n && events[k].Checking? && events[k].request.key == events[i].request.key
        ensures !AnswerAt(events[..n], ttl, k).Granted?
      {
        assert events[..n][..k] == events[..k];
        assert !AnswerAt(events, ttl, k).Granted?;
      }
      LapsesAlong(events[..n], ttl, i);
      LapsesOn(Run(events[..n], ttl), events[n], ttl, events[i].request, events[i].now + ttl, events[n - 1].now);
    } else {
      GrantHolds(Run(events[..n], ttl), events[n].request, ttl, events[n].now);
      GrantIsHeld(Run(events, ttl), events[i].request, events[i].now + ttl, events[n].now);
    }
  }

  lemma GrantIsHeld(s: Store, q: Request, expiry: real, now: real)
    requires Held(s, q, expiry)
    ensures HeldOrLapsed(s, q, expiry, now)
  {
  }

  /**
   The exact life of a grant that is neither saved nor deleted: the next request with the key that
   could be granted, whatever its hash, is granted exactly when the time to live is over.
   */
  lemma ExpiredGrantIsGivenAgain(events: seq<Event>, ttl: real, i: nat, j: nat)
    requires Monotone(events) && i < j < |events|
    requires events[i].Checking? && AnswerAt(events, ttl, i).Granted?
    requires events[j].Checking? && events[j].request.key == events[i].request.key
    requires forall k :: i < k < j ==> !Writes(events[k], events[i].request.key)
    requires forall k :: i < k < j && events[k].Checking? && events[k].request.key == events[i].request.key ==>
               !AnswerAt(events, ttl, k).Granted?
    ensures AnswerAt(events, ttl, j).Granted? <==> events[j].now > events[i].now + ttl
  {
    hide Run, Check, HeldOrLapsed;
    var before := events[..j];
    assert before[..i] == events[..i];
    forall k | i < k < j && events[k].Checking? && events[k].request.key == events[i].request.key
      ensures !AnswerAt(before, ttl, k).Granted?
    {
      assert before[..k] == events[..k];
      assert !AnswerAt(events, ttl, k).Granted?;
    }
    LapsesAlong(before, ttl, i);
    assert before[|before| - 1].now <= events[j].now;
    LapsesOn(Run(before, ttl), events[j], ttl, events[i].request, events[i].now + ttl, before[|before| - 1].now);
  }

  // --- replay ------------------------------------------------------------------------

  /** A completed record of a request with a given answer, apart from the mark that replays leave in the headers. */
  ghost predicate Answered(s: Store, q: Request, response: Response, expiry: real) {
    && q.key in s && Of(s[q.key], q) && s[q.key].phase == Completed && s[q.key].expiresAt == Some(expiry)
    && s[q.key].response.Some? && s[q.key].response.value.body == response.body && s[q.key].response.value.status == response.status
    && Marked(s[q.key].response.value.headers) == Marked(response.headers)
  }

  lemma AnswerStays(s: Store, e: Event, ttl: real, q: Request, response: Response, expiry: real)
    requires Answered(s, q, response, expiry) && !Writes(e, q.key) && e.now <= expiry
    ensures Answered(Apply(s, e, ttl), q, response, expiry)
    ensures e.Checking? && e.request.key == q.key ==>
              Check(s, e.request, ttl, e.now).answer ==
                if e.request.hash == q.hash then Replayed(Some(response.(headers := response.headers["X-Idempotency-Replay" := "true"])))
                else Conflict(q.operation)
  {
  }

  lemma {:induction false} AnswerAlong(events: seq<Event>, ttl: real, i: nat, q: Request, expiry: real)
    requires Monotone(events) && i < |events| && events[i].Saving? && events[i].phase == Completed && events[i].key == q.key
    requires Held(Run(events[..i], ttl), q, expiry)
    requires forall k :: i < k < |events| ==> !Writes(events[k], q.key)
    requires events[|events| - 1].now <= expiry
    ensures Answered(Run(events, ttl), q, events[i].response, expiry)
  {
    hide Answered;
    var n := |events| - 1;
    if i < n {
      hide Apply, Held;
      assert events[..n][..i] == events[..i];
      AnswerAlong(events[..n], ttl, i, q, expiry);
      AnswerStays(Run(events[..n], ttl), events[n], ttl, q, events[i].response, expiry);
    } else {
      SaveAnswers(Run(events[..n], ttl), q, events[i].response, expiry, events[i].now);
    }
  }

  lemma SaveAnswers(s: Store, q: Request, response: Response, expiry: real, now: real)
    requires Held(s, q, expiry)
    ensures Answered(Save(s, q.key, response, Completed, now), q, response, expiry)
  {
  }

  /**
   Replay: a request is granted, its response below 400 is saved, and nobody writes the key again;
   then within the time to live every request with the same hash gets that body and status, marked
   as a replay, and every other hash gets a conflict that names the granted operation.
   */
  lemma SavedResponseIsReplayed(events: seq<Event>, ttl: real, g: nat, i: nat, j: nat)
    requires Monotone(events) && ttl >= 0.0 && g < i < j < |events|
    requires events[g].Checking? && AnswerAt(events, ttl, g).Granted?
    requires events[i].Saving? && events[i].key == events[g].request.key && events[i].phase == Completed
    requires forall k :: g < k < j && k != i ==> !Writes(events[k], events[g].request.key)
    requires events[j].Checking? && events[j].request.key == events[g].request.key && events[j].now <= events[g].now + ttl
    ensures AnswerAt(events, ttl, j) ==
              if events[j].request.hash == events[g].request.hash
              then Replayed(Some(events[i].response.(headers := events[i].response.headers["X-Idempotency-Replay" := "true"])))
              else Conflict(events[g].request.operation)
  {
    hide Run, Check, Held, Answered;
    var q, expiry := events[g].request, events[g].now + ttl;
    var early, before := events[..i], events[..j];
    assert early[..g] == events[..g] && before[..i] == events[..i];
    assert early[|early| - 1].now <= events[j].now && before[|before| - 1].now <= events[j].now;
    HeldAlong(early, ttl, g);
    AnswerAlong(before, ttl, i, q, expiry);
    AnswerStays(Run(before, ttl), events[j], ttl, q, events[i].response, expiry);
  }

  // --- what is on record ---------------------------------------------------------------

  /** A grant puts the request on record, open and dated, whatever was there before; no other key is touched. */
  lemma GrantIsRecorded(s: Store, q: Request, ttl: real, now: real)
    requires Check(s, q, ttl, now).answer.Granted?
    ensures Check(s, q, ttl, now).store == s[q.key := Record(q.caller, q.operation, q.hash, q.body, None, Processing, now, None, Some(now + ttl))]
  {
  }

  /** Only a replay changes a record that was not granted anew: it marks the stored headers, unless there are none. */
  lemma ReplayIsRecorded(s: Store, q: Request, ttl: real, now: real)
    requires q.key in s && !(s[q.key].expiresAt.Some? && s[q.key].expiresAt.value < now) && !Check(s, q, ttl, now).answer.Granted?
    ensures var r := s[q.key];
            Check(s, q, ttl, now).store ==
              if r.hash == q.hash && r.phase == Completed && r.response.Some? && r.response.value.headers != map[] then
                s[q.key := r.(response := Some(r.response.value.(headers := r.response.value.headers["X-Idempotency-Replay" := "true"])))]
              else s
  {
  }

  /** A response below 500 is put on record with its instant, as completed below 400 and as failed from there on; from 500 on the record goes. */
  lemma SettlementIsRecorded(s: Store, key: string, response: Response, now: real)
    requires key in s
    ensures Settle(s, key, response, now) ==
              if response.status < 500 then
                s[key := s[key].(response := Some(response), completedAt := Some(now), phase := if response.status < 400 then Completed else Failed)]
              else s - {key}
  {
  }
}
