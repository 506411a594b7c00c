/**
 Requests that follow the middleware: a session is admitted by a grant and settles its key once,
 or dies without settling it. Unless a session outlives its record, at most one session holds a
 key, nobody else ever writes it, and a response below 400 is final.
 */
module IdempotencySessions {
  import opened Wrappers
  import opened Idempotency

  datatype System = System(store: Store, active: map<nat, string>)

  datatype Move =
    | Arrive(session: nat, request: Request, now: real)
    | Respond(session: nat, response: Response, now: real)
    | Die(session: nat, now: real)
    | Clean(now: real)

  function Advance(y: System, m: Move, ttl: real): System {
    match m
    case Arrive(session, request, now) =>
      var r := Check(y.store, request, ttl, now);
      System(r.store, if r.answer.Granted? then y.active[session := request.key] else y.active)
    case Respond(session, response, now) =>
      if session !in y.active then y
      else System(Settle(y.store, y.active[session], response, now), y.active - {session})
    case Die(session, now) => y.(active := y.active - {session})
    case Clean(now) => y.(store := Sweep(y.store, now))
  }

  function Play(moves: seq<Move>, ttl: real): System {
    if moves == [] then System(map[], map[]) else Advance(Play(moves[..|moves| - 1], ttl), moves[|moves| - 1], ttl)
  }

  /** Every session arrives once. */
  ghost predicate Once(moves: seq<Move>, ttl: real) {
    forall i :: 0 <= i < |moves| && moves[i].Arrive? ==> moves[i].session !in Play(moves[..i], ttl).active
  }

  /** A move that looks at the record of a key when it is past its expiry. */
  predicate Lapsed(y: System, m: Move, key: string) {
    (m.Clean? || (m.Arrive? && m.request.key == key)) && key in y.store && Expired(y.store[key], m.now)
  }

  /** ... while a session is still at work on the key. */
  ghost predicate Outlives(y: System, m: Move, key: string) {
    Lapsed(y, m, key) && exists x :: x in y.active && y.active[x] == key
  }

  /** A key that a session is at work on is being processed, by that session alone. */
  ghost predicate Exclusive(y: System, key: string) {
    && (forall x :: x in y.active && y.active[x] == key ==> key in y.store && y.store[key].phase == Processing)
    && (forall x, z :: x in y.active && z in y.active && y.active[x] == key && y.active[z] == key ==> x == z)
  }

  /** A request for a key that a session is at work on is granted exactly when the session has outlived the record. */
  lemma HeldKeyIsGranted(y: System, x: nat, q: Request, ttl: real, now: real)
    requires Exclusive(y, q.key) && x in y.active && y.active[x] == q.key
    ensures q.key in y.store
    ensures Check(y.store, q, ttl, now).answer.Granted? <==> Expired(y.store[q.key], now)
  {
  }

  /** A move keeps a key to one session exactly unless it looks at the record of a session that has outlived it. */
  lemma ExclusiveUnlessOutlived(y: System, m: Move, ttl: real, key: string)
    requires Exclusive(y, key) && (m.Arrive? ==> m.session !in y.active)
    ensures Exclusive(Advance(y, m, ttl), key) <==> !Outlives(y, m, key)
  {
    match m
    case Arrive(session, request, now) => ArriveExclusive(y, session, request, ttl, now, key);
    case Respond(session, response, now) => RespondExclusive(y, session, response, now, ttl, key);
    case Die(_, _) =>
    case Clean(now) => CleanExclusive(y, now, ttl, key);
  }

  lemma ArriveExclusive(y: System, session: nat, q: Request, ttl: real, now: real, key: string)
    requires Exclusive(y, key) && session !in y.active
    ensures Exclusive(Advance(y, Arrive(session, q, now), ttl), key) <==> !Outlives(y, Arrive(session, q, now), key)
  {
    var z := Advance(y, Arrive(session, q, now), ttl);
    if Outlives(y, Arrive(session, q, now), key) {
      var x :| x in y.active && y.active[x] == key;
      assert session in z.active && x in z.active && z.active[x] == key && z.active[session] == key;
    }
  }

  lemma RespondExclusive(y: System, session: nat, response: Response, now: real, ttl: real, key: string)
    requires Exclusive(y, key)
    ensures Exclusive(Advance(y, Respond(session, response, now), ttl), key)
  {
  }

  lemma CleanExclusive(y: System, now: real, ttl: real, key: string)
    requires Exclusive(y, key)
    ensures Exclusive(Advance(y, Clean(now), ttl), key) <==> !Outlives(y, Clean(now), key)
  {
    var z := Advance(y, Clean(now), ttl);
    assert key in z.store <==> key in y.store && !Expired(y.store[key], now);
    if Outlives(y, Clean(now), key) {
      var x :| x in y.active && y.active[x] == key;
      assert x in z.active && z.active[x] == key;
    }
  }

  ghost predicate NobodyOutlives(moves: seq<Move>, ttl: real, key: string) {
    forall i :: 0 <= i < |moves| ==> !Outlives(Play(moves[..i], ttl), moves[i], key)
  }

  lemma PlayGrows(moves: seq<Move>, ttl: real, i: nat)
    requires i < |moves|
    ensures Play(moves[..i + 1], ttl) == Advance(Play(moves[..i], ttl), moves[i], ttl)
  {
    hide Advance;
    assert moves[..i + 1][..i] == moves[..i];
  }

  lemma {:induction false} ExclusiveUpTo(moves: seq<Move>, ttl: real, key: string, i: nat)
    requires Once(moves, ttl) && NobodyOutlives(moves, ttl, key) && i <= |moves|
    ensures Exclusive(Play(moves[..i], ttl), key)
  {
    hide Play, Advance, Exclusive, Outlives;
    if i == 0 {
      NobodyYet(key, ttl);
      assert moves[..0] == [];
    } else {
      ExclusiveUpTo(moves, ttl, key, i - 1);
      PlayGrows(moves, ttl, i - 1);
      ExclusiveUnlessOutlived(Play(moves[..i - 1], ttl), moves[i - 1], ttl, key);
    }
  }

  lemma NobodyYet(key: string, ttl: real)
    ensures Exclusive(Play([], ttl), key)
  {
  }

  /** A key is kept to one session throughout a run exactly when no session on it outlives its record under the eyes of a request or a cleanup. */
  lemma ExclusiveThroughout(moves: seq<Move>, ttl: real, key: string)
    requires Once(moves, ttl)
    ensures (forall i :: 0 <= i <= |moves| ==> Exclusive(Play(moves[..i], ttl), key)) <==> NobodyOutlives(moves, ttl, key)
  {
    hide Play, Advance, Exclusive, Outlives;
    if NobodyOutlives(moves, ttl, key) {
      forall i | 0 <= i <= |moves|
        ensures Exclusive(Play(moves[..i], ttl), key)
      {
        ExclusiveUpTo(moves, ttl, key, i);
      }
    }
    if forall i :: 0 <= i <= |moves| ==> Exclusive(Play(moves[..i], ttl), key) {
      forall i | 0 <= i < |moves|
        ensures !Outlives(Play(moves[..i], ttl), moves[i], key)
      {
        PlayGrows(moves, ttl, i);
        assert Exclusive(Play(moves[..i], ttl), key) && Exclusive(Play(moves[..i + 1], ttl), key);
        ExclusiveUnlessOutlived(Play(moves[..i], ttl), moves[i], ttl, key);
      }
    }
  }

  /** No two requests with one key are at work at the same time. */
  lemma OneSessionPerKey(moves: seq<Move>, ttl: real, x: nat, z: nat)
    requires Once(moves, ttl) && x in Play(moves, ttl).active && z in Play(moves, ttl).active
    requires Play(moves, ttl).active[x] == Play(moves, ttl).active[z] && NobodyOutlives(moves, ttl, Play(moves, ttl).active[x])
    ensures x == z
  {
    hide Play, Once, NobodyOutlives;
    ExclusiveUpTo(moves, ttl, Play(moves, ttl).active[x], |moves|);
    assert moves[..|moves|] == moves;
  }

  /** The body and status of a response, whatever its headers. */
  predicate Replays(a: Answer, response: Response) {
    a.Replayed? && a.response.Some? && a.response.value.body == response.body && a.response.value.status == response.status
  }

  /** The key holds a final answer: nobody is at work on it. */
  ghost predicate Final(y: System, key: string, hash: string, response: Response) {
    && key in y.store && y.store[key].phase == Completed && y.store[key].hash == hash
    && y.store[key].response.Some? && y.store[key].response.value.body == response.body
    && y.store[key].response.value.status == response.status
    && forall x :: x in y.active ==> y.active[x] != key
  }

  lemma FinalStays(y: System, m: Move, ttl: real, key: string, hash: string, response: Response)
    requires Final(y, key, hash, response) && !Lapsed(y, m, key)
    ensures Final(Advance(y, m, ttl), key, hash, response)
    ensures m.Arrive? && m.request.key == key ==>
              var a := Check(y.store, m.request, ttl, m.now).answer;
              if m.request.hash == hash then Replays(a, response) else a.Conflict?
  {
  }

  /** The answer of an admitted session below 400 becomes final. */
  lemma RespondFinal(y: System, session: nat, response: Response, now: real, ttl: real)
    requires session in y.active && Exclusive(y, y.active[session]) && response.status < 400
    ensures y.active[session] in y.store
    ensures Final(Advance(y, Respond(session, response, now), ttl), y.active[session], y.store[y.active[session]].hash, response)
  {
  }

  /** The key of the session that responds in the `i`-th move. */
  function KeyAt(moves: seq<Move>, ttl: real, i: nat): string
    requires i < |moves| && moves[i].Respond? && moves[i].session in Play(moves[..i], ttl).active
  {
    Play(moves[..i], ttl).active[moves[i].session]
  }

  lemma {:induction false} FinalAlong(moves: seq<Move>, ttl: real, i: nat, n: nat)
    requires i < n <= |moves| && moves[i].Respond? && moves[i].response.status < 400
    requires moves[i].session in Play(moves[..i], ttl).active && Exclusive(Play(moves[..i], ttl), KeyAt(moves, ttl, i))
    requires forall k :: i < k < n ==> !Lapsed(Play(moves[..k], ttl), moves[k], KeyAt(moves, ttl, i))
    ensures KeyAt(moves, ttl, i) in Play(moves[..i], ttl).store
    ensures var key := KeyAt(moves, ttl, i);
            Final(Play(moves[..n], ttl), key, Play(moves[..i], ttl).store[key].hash, moves[i].response)
    decreases n
  {
    hide Play, Advance, Final, Lapsed, Exclusive;
    var y, key := Play(moves[..i], ttl), KeyAt(moves, ttl, i);
    RespondFinal(y, moves[i].session, moves[i].response, moves[i].now, ttl);
    PlayGrows(moves, ttl, n - 1);
    if i < n - 1 {
      FinalAlong(moves, ttl, i, n - 1);
      FinalStays(Play(moves[..n - 1], ttl), moves[n - 1], ttl, key, y.store[key].hash, moves[i].response);
    }
  }

  /**
   Once an admitted request has been answered below 400, every later request with the same hash is
   given that body and status, and every request with another hash a conflict, exactly until a
   request or a cleanup finds the record of this key past its expiry.
   */
  lemma AnswerIsFinal(moves: seq<Move>, ttl: real, i: nat, j: nat)
    requires Once(moves, ttl) && i < j < |moves| && moves[i].Respond? && moves[i].response.status < 400
    requires moves[i].session in Play(moves[..i], ttl).active && NobodyOutlives(moves[..i], ttl, KeyAt(moves, ttl, i))
    requires moves[j].Arrive? && moves[j].request.key == KeyAt(moves, ttl, i)
    requires forall k :: i < k < j ==> !Lapsed(Play(moves[..k], ttl), moves[k], KeyAt(moves, ttl, i))
    ensures moves[j].request.key in Play(moves[..i], ttl).store
    ensures var a := Check(Play(moves[..j], ttl).store, moves[j].request, ttl, moves[j].now).answer;
            (if moves[j].request.hash == Play(moves[..i], ttl).store[moves[j].request.key].hash
             then Replays(a, moves[i].response) else a.Conflict?)
            <==> !Lapsed(Play(moves[..j], ttl), moves[j], moves[j].request.key)
  {
    hide Play, Advance, Final, Check, Lapsed, Exclusive, Outlives;
    var y, key := Play(moves[..i], ttl), KeyAt(moves, ttl, i);
    OnceBefore(moves, ttl, i);
    ExclusiveUpTo(moves[..i], ttl, key, i);
    assert moves[..i][..i] == moves[..i];
    FinalAlong(moves, ttl, i, j);
    if Lapsed(Play(moves[..j], ttl), moves[j], key) {
      LapsedIsGranted(Play(moves[..j], ttl), moves[j], ttl);
    } else {
      FinalStays(Play(moves[..j], ttl), moves[j], ttl, key, y.store[key].hash, moves[i].response);
    }
  }

  lemma LapsedIsGranted(y: System, m: Move, ttl: real)
    requires m.Arrive? && Lapsed(y, m, m.request.key)
    ensures Check(y.store, m.request, ttl, m.now).answer.Granted?
  {
  }

  lemma OnceBefore(moves: seq<Move>, ttl: real, i: nat)
    requires Once(moves, ttl) && i <= |moves|
    ensures Once(moves[..i], ttl)
  {
    hide Play;
    forall k | 0 <= k < i && moves[..i][k].Arrive?
      ensures moves[..i][k].session !in Play(moves[..i][..k], ttl).active
    {
      assert moves[..i][..k] == moves[..k];
    }
  }

  /** A client error leaves the key open to the same request, a server error to any request. */
  lemma FailureReopens(y: System, session: nat, response: Response, now: real, next: Request, later: real, ttl: real)
    requires session in y.active && next.key == y.active[session] && Exclusive(y, next.key) && response.status >= 400
    requires next.key in y.store ==> !Expired(y.store[next.key], later)
    ensures next.key in y.store
    ensures Check(Advance(y, Respond(session, response, now), ttl).store, next, ttl, later).answer.Granted?
       <==> response.status >= 500 || next.hash == y.store[next.key].hash
  {
  }

  /** With expiry there is no such guarantee: a session that outlives its record overwrites its successor's answer. */
  lemma OutlivedSessionOverwrites(q: Request, first: Response, second: Response, ttl: real)
    requires ttl >= 0.0 && first.status < 400 && second.status < 400
    ensures var moves := [Arrive(0, q, 0.0), Arrive(1, q, ttl + 1.0), Respond(1, second, ttl + 1.0), Respond(0, first, ttl + 1.0)];
            var s := Play(moves, ttl).store;
            q.key in s && s[q.key].response == Some(first) && s[q.key].phase == Completed
  {
    var moves := [Arrive(0, q, 0.0), Arrive(1, q, ttl + 1.0), Respond(1, second, ttl + 1.0), Respond(0, first, ttl + 1.0)];
    var y1 := Advance(System(map[], map[]), moves[0], ttl);
    var y2 := Advance(y1, moves[1], ttl);
    var y3 := Advance(y2, moves[2], ttl);
    var y4 := Advance(y3, moves[3], ttl);
    assert Play(moves, ttl) == y4 by {
      hide Advance;
      assert moves[..3][..2] == moves[..2] && moves[..2][..1] == moves[..1] && moves[..1][..0] == [];
      assert Play(moves[..1], ttl) == y1;
      assert Play(moves[..2], ttl) == y2;
      assert Play(moves[..3], ttl) == y3;
    }
  }
}
