/**
 Clients of the store that follow `ConcurrencyManager.acquire`: a session enters by a successful
 attempt and leaves by one release, whatever its body does. What wake-ups and cleanup do to them.
 */
module ConcurrencyClients {
  import opened Dictionaries
  import opened Concurrency
  import opened ConcurrencySafety

  /**
   `inside` holds the sessions between their acquire and their release, `asleep` those that wait,
   each on the event of its last attempt.
   */
  datatype System = System(store: Store, inside: map<nat, Pair>, asleep: map<nat, nat>)

  datatype Move =
    | Enter(session: nat, key: string, owner: string, now: real)
    | TimeOut(session: nat)
    | GiveUp(session: nat, key: string, owner: string)
    | Leave(session: nat)
    | Beat(key: string, owner: string, now: real)
    | Clean(key: string, threshold: real)

  /** A session that times out leaves its event where it is; one that is cancelled takes it back. */
  function Advance(limits: map<string, int>, y: System, m: Move): System {
    match m
    case Enter(session, key, owner, now) =>
      var a := TryAcquire(y.store, key, owner, LimitOf(limits, key), now);
      if a.slot.Some? then System(a.store, y.inside[session := (key, owner)], y.asleep - {session})
      else System(a.store, y.inside, y.asleep[session := y.store.nextEvent])
    case TimeOut(session) => y.(asleep := y.asleep - {session})
    case GiveUp(session, key, owner) =>
      if session !in y.asleep then y
      else y.(store := Abandon(y.store, key, owner, y.asleep[session]), asleep := y.asleep - {session})
    case Leave(session) =>
      if session !in y.inside then y
      else y.(store := Release(y.store, y.inside[session].0, y.inside[session].1).store, inside := y.inside - {session})
    case Beat(key, owner, now) => y.(store := Heartbeat(y.store, key, owner, now).store)
    case Clean(key, threshold) => y.(store := CleanUp(y.store, key, threshold))
  }

  function Play(limits: map<string, int>, y: System, moves: seq<Move>): System
    decreases |moves|
  {
    if moves == [] then y else Play(limits, Advance(limits, y, moves[0]), moves[1..])
  }

  const START: System := System(New(), map[], map[])

  function StaleAt(s: Store, key: string, threshold: real): seq<string> {
    StaleOwners(SlotsAt(s, key), SlotsAt(s, key).keys, threshold)
  }

  /** Sessions enter once, and no cleanup finds a stale slot of the key; what happens to other keys does not matter. */
  ghost predicate Civil(limits: map<string, int>, y: System, moves: seq<Move>, key: string)
    decreases |moves|
  {
    moves != [] ==>
      && (moves[0].Enter? ==> moves[0].session !in y.inside)
      && (moves[0].Clean? && moves[0].key == key ==> StaleAt(y.store, key, moves[0].threshold) == [])
      && Civil(limits, Advance(limits, y, moves[0]), moves[1..], key)
  }

  function Sessions(inside: map<nat, Pair>, p: Pair): set<nat> {
    set x | x in inside && inside[x] == p
  }

  ghost predicate Balanced(limits: map<string, int>, y: System, key: string) {
    Safe(limits, y.store) && forall owner :: |Sessions(y.inside, (key, owner))| == Refs(y.store, key, owner)
  }

  lemma SessionsIn(inside: map<nat, Pair>, x: nat, p: Pair, q: Pair)
    requires x !in inside
    ensures |Sessions(inside[x := p], q)| == |Sessions(inside, q)| + if p == q then 1 else 0
  {
    assert Sessions(inside[x := p], q) == Sessions(inside, q) + if p == q then {x} else {};
  }

  lemma SessionsOut(inside: map<nat, Pair>, x: nat, q: Pair)
    requires x in inside
    ensures |Sessions(inside - {x}, q)| == |Sessions(inside, q)| - if inside[x] == q then 1 else 0
  {
    assert Sessions(inside - {x}, q) == Sessions(inside, q) - if inside[x] == q then {x} else {};
  }

  lemma AcquireRefs(s: Store, k: string, o: string, limit: int, now: real, key: string, owner: string)
    ensures var a := TryAcquire(s, k, o, limit, now);
            Refs(a.store, key, owner) == Refs(s, key, owner) + if a.slot.Some? && k == key && o == owner then 1 else 0
  {
    var slots := SlotsAt(s, k);
    PutLookup(slots, o, if slots.Has(o) then Shared(slots.Get(o), now) else Slot(k, o, now, now, 1));
  }

  lemma ReleaseRefs(s: Store, k: string, o: string, key: string, owner: string)
    requires SlotsAt(s, k).Has(o) ==> SlotsAt(s, k).Get(o).refCount >= 1
    ensures var r := Release(s, k, o);
            && (r.ok <==> Refs(s, k, o) > 0)
            && Refs(r.store, key, owner) == Refs(s, key, owner) - if r.ok && k == key && o == owner then 1 else 0
  {
    hide Notify;
    var slots := SlotsAt(s, k);
    if slots.Has(o) {
      var slot := slots.Get(o);
      PutLookup(slots, o, slot.(refCount := slot.refCount - 1));
      RemoveLookup(slots, o);
      NotifyKeepsSlots(CountReleased(SetSlots(s, k, slots.Remove(o)), k, o), k);
    }
  }

  lemma CleanElsewhere(s: Store, k: string, threshold: real, key: string, owner: string)
    requires k != key || StaleAt(s, key, threshold) == []
    ensures Refs(CleanUp(s, k, threshold), key, owner) == Refs(s, key, owner)
  {
    hide Notify, RemoveAll, StaleOwners;
    NotifyKeepsSlots(SetSlots(s, k, RemoveAll(SlotsAt(s, k), StaleAt(s, k, threshold))), k);
  }

  lemma AdvanceBalances(limits: map<string, int>, y: System, m: Move, key: string)
    requires Balanced(limits, y, key) && (m.Enter? ==> m.session !in y.inside)
    requires m.Clean? && m.key == key ==> StaleAt(y.store, key, m.threshold) == []
    ensures Balanced(limits, Advance(limits, y, m), key)
  {
    hide Safe, TryAcquire, Release, Heartbeat, CleanUp, Abandon, Refs, Sessions, StaleAt;
    var z := Advance(limits, y, m);
    AdvanceSafe(limits, y, m);
    forall owner
      ensures |Sessions(z.inside, (key, owner))| == Refs(z.store, key, owner)
    {
      match m
      case Enter(session, k, o, now) =>
        SessionsIn(y.inside, session, (k, o), (key, owner));
        AcquireRefs(y.store, k, o, LimitOf(limits, k), now, key, owner);
      case TimeOut(_) =>
      case GiveUp(session, k, o) =>
        if session in y.asleep {
          AbandonRefs(y.store, k, o, y.asleep[session], key, owner);
        }
      case Leave(session) =>
        if session in y.inside {
          var p := y.inside[session];
          if p.0 == key {
            LeavingSucceeds(limits, y, session);
          }
          SessionsOut(y.inside, session, (key, owner));
          SlotFacts(limits, y.store, p.0, p.1);
          ReleaseRefs(y.store, p.0, p.1, key, owner);
        }
      case Beat(k, o, now) => BeatBalances(y.store, k, o, now, key, owner);
      case Clean(k, threshold) => CleanElsewhere(y.store, k, threshold, key, owner);
    }
  }

  lemma AbandonRefs(s: Store, k: string, o: string, event: nat, key: string, owner: string)
    ensures Refs(Abandon(s, k, o, event), key, owner) == Refs(s, key, owner)
  {
  }

  lemma AdvanceSafe(limits: map<string, int>, y: System, m: Move)
    requires Safe(limits, y.store)
    ensures Safe(limits, Advance(limits, y, m).store)
  {
    hide Safe, TryAcquire, Release, Heartbeat, CleanUp, Abandon;
    match m
    case Enter(_, key, owner, now) => StepSafe(limits, y.store, Acquiring(key, owner, now));
    case Leave(session) =>
      if session in y.inside {
        StepSafe(limits, y.store, Releasing(y.inside[session].0, y.inside[session].1));
      }
    case TimeOut(_) =>
    case GiveUp(session, key, owner) =>
      if session in y.asleep {
        StepSafe(limits, y.store, Cancelled(key, owner, y.asleep[session]));
      }
    case Beat(key, owner, now) => StepSafe(limits, y.store, Beating(key, owner, now));
    case Clean(key, threshold) => StepSafe(limits, y.store, Cleaning(key, threshold));
  }

  /** The release on the way out finds its slot. */
  lemma LeavingSucceeds(limits: map<string, int>, y: System, session: nat)
    requires session in y.inside && Balanced(limits, y, y.inside[session].0)
    ensures Release(y.store, y.inside[session].0, y.inside[session].1).ok
  {
    var p := y.inside[session];
    assert session in Sessions(y.inside, (p.0, p.1));
    assert |Sessions(y.inside, (p.0, p.1))| == Refs(y.store, p.0, p.1);
    SlotFacts(limits, y.store, p.0, p.1);
    ReleaseRefs(y.store, p.0, p.1, p.0, p.1);
  }

  /** The reference count of a slot is the number of sessions inside, in every interleaving that evicts no slot of the key. */
  lemma {:induction false} PlayIsBalanced(limits: map<string, int>, y: System, moves: seq<Move>, key: string)
    requires Balanced(limits, y, key) && Civil(limits, y, moves, key)
    ensures Balanced(limits, Play(limits, y, moves), key)
    decreases |moves|
  {
    hide Advance, Balanced, StaleAt;
    if moves != [] {
      AdvanceBalances(limits, y, moves[0], key);
      PlayIsBalanced(limits, Advance(limits, y, moves[0]), moves[1..], key);
    }
  }

  lemma StartBalanced(limits: map<string, int>, key: string)
    ensures Balanced(limits, START, key)
  {
    NewIsSafe(limits);
    assert forall p: Pair :: Sessions(map[], p) == {};
  }

  function OwnersInside(inside: map<nat, Pair>, key: string): set<string> {
    set x | x in inside && inside[x].0 == key :: inside[x].1
  }

  function Bound(limits: map<string, int>, key: string): nat {
    if LimitOf(limits, key) > 0 then LimitOf(limits, key) else 0
  }

  lemma OwnersHoldSlots(limits: map<string, int>, y: System, key: string)
    requires Balanced(limits, y, key)
    ensures OwnersInside(y.inside, key) == SlotsAt(y.store, key).items.Keys
    ensures |OwnersInside(y.inside, key)| <= Bound(limits, key)
  {
    hide Safe;
    SlotFacts(limits, y.store, key, "");
    var owners, slots := OwnersInside(y.inside, key), SlotsAt(y.store, key);
    forall o | o in owners
      ensures o in slots.items.Keys
    {
      var x :| x in y.inside && y.inside[x] == (key, o);
      assert x in Sessions(y.inside, (key, o));
      assert |Sessions(y.inside, (key, o))| == Refs(y.store, key, o);
    }
    forall o | o in slots.items.Keys
      ensures o in owners
    {
      assert slots.Has(o);
      SlotFacts(limits, y.store, key, o);
      assert |Sessions(y.inside, (key, o))| == Refs(y.store, key, o);
      var x :| x in Sessions(y.inside, (key, o));
      assert y.inside[x] == (key, o);
    }
    DictSize(slots);
  }

  /** As long as no slot of the scope is evicted, sessions of at most as many owners are inside as its limit allows. */
  lemma OwnersWithinLimit(limits: map<string, int>, moves: seq<Move>, key: string)
    requires Civil(limits, START, moves, key)
    ensures |OwnersInside(Play(limits, START, moves).inside, key)| <= Bound(limits, key)
  {
    hide Play, Civil, Balanced;
    StartBalanced(limits, key);
    PlayIsBalanced(limits, START, moves, key);
    OwnersHoldSlots(limits, Play(limits, START, moves), key);
  }

  // --- cleanup ------------------------------------------------------------------------

  lemma {:induction false} StaleOwnersAre(slots: Dict<string, Slot>, keys: seq<string>, threshold: real)
    ensures forall o :: o in StaleOwners(slots, keys, threshold) <==> o in keys && Stale(slots, o, threshold)
  {
    if keys != [] {
      var n := |keys| - 1;
      StaleOwnersAre(slots, keys[..n], threshold);
      assert keys == keys[..n] + [keys[n]];
    }
  }

  lemma {:induction false} RemoveAllLookup(slots: Dict<string, Slot>, owners: seq<string>, o: string)
    ensures var r := RemoveAll(slots, owners);
            (r.Has(o) <==> slots.Has(o) && o !in owners) && (r.Has(o) ==> r.Get(o) == slots.Get(o))
  {
    if owners != [] {
      var n := |owners| - 1;
      RemoveAllLookup(slots, owners[..n], o);
      RemoveLookup(RemoveAll(slots, owners[..n]), owners[n]);
      assert owners == owners[..n] + [owners[n]];
    }
  }

  /** Cleanup frees exactly the slots without a recent heartbeat, whatever their reference count, and wakes at most one waiter for all of them. */
  lemma CleanUpFreesStale(limits: map<string, int>, s: Store, key: string, threshold: real, owner: string)
    requires Safe(limits, s)
    ensures var t, slots := CleanUp(s, key, threshold), SlotsAt(s, key);
            && (SlotsAt(t, key).Has(owner) <==> slots.Has(owner) && slots.Get(owner).heartbeatAt >= threshold)
            && (SlotsAt(t, key).Has(owner) ==> SlotsAt(t, key).Get(owner) == slots.Get(owner))
            && t.fired - s.fired == (if StaleAt(s, key, threshold) != [] && WaitersAt(s, key).keys != []
                                     then {WaitersAt(s, key).items[WaitersAt(s, key).keys[0]]} else {})
  {
    hide Asleep, Apart, Notify, RemoveAll;
    var slots := SlotsAt(s, key);
    SlotFacts(limits, s, key, owner);
    var stale := StaleOwners(slots, slots.keys, threshold);
    StaleOwnersAre(slots, slots.keys, threshold);
    RemoveAllLookup(slots, stale, owner);
    RemoveAllOk(slots, key, LimitOf(limits, key), stale);
    var u := SetSlots(s, key, RemoveAll(slots, stale));
    SetSlotsSafe(limits, s, key, RemoveAll(slots, stale));
    NotifyWakesFirst(limits, u, key);
    NotifyKeepsSlots(u, key);
    if WaitersAt(s, key).keys != [] {
      FirstIsListed(limits, s, key);
      FirstSleeps(limits, s, key);
    }
  }

  lemma FirstSleeps(limits: map<string, int>, s: Store, key: string)
    requires Safe(limits, s) && WaitersAt(s, key).keys != [] && WaitersAt(s, key).Has(WaitersAt(s, key).keys[0])
    ensures WaitersAt(s, key).items[WaitersAt(s, key).keys[0]] !in s.fired
  {
    var w := WaitersAt(s, key);
    assert Asleep(w, s.fired, s.nextEvent);
    assert w.Get(w.keys[0]) !in s.fired;
  }

  /** Only the last release of an owner frees the slot, and then the longest waiter is woken, once. */
  lemma LastReleaseWakes(limits: map<string, int>, s: Store, key: string, owner: string)
    requires Safe(limits, s) && SlotsAt(s, key).Has(owner)
    ensures var t := Release(s, key, owner).store;
            var last := SlotsAt(s, key).Get(owner).refCount == 1;
            && (SlotsAt(t, key).Has(owner) <==> !last)
            && t.fired - s.fired == (if last && WaitersAt(s, key).keys != []
                                     then {WaitersAt(s, key).items[WaitersAt(s, key).keys[0]]} else {})
  {
    hide Safe, Asleep, Apart, Notify;
    var slots := SlotsAt(s, key);
    SlotFacts(limits, s, key, owner);
    RemoveLookup(slots, owner);
    PutLookup(slots, owner, slots.Get(owner).(refCount := slots.Get(owner).refCount - 1));
    RemoveSlotOk(slots, key, LimitOf(limits, key), owner);
    SetSlotsSafe(limits, s, key, slots.Remove(owner));
    CountSafe(limits, SetSlots(s, key, slots.Remove(owner)), key, owner);
    var u := CountReleased(SetSlots(s, key, slots.Remove(owner)), key, owner);
    NotifyWakesFirst(limits, u, key);
    NotifyKeepsSlots(u, key);
    if WaitersAt(s, key).keys != [] {
      FirstIsListed(limits, s, key);
      FirstSleeps(limits, s, key);
    }
  }

  // --- what an eviction leads to --------------------------------------------------------

  lemma {:induction false} LengthsBounded(used: set<string>) returns (n: nat)
    ensures forall o :: o in used ==> |o| <= n
  {
    n := 0;
    if used != {} {
      var x :| x in used;
      var m := LengthsBounded(used - {x});
      n := if |x| > m then |x| else m;
    }
  }

  lemma FreshOwner(used: set<string>) returns (o: string)
    ensures o !in used
  {
    var n := LengthsBounded(used);
    o := seq(n + 1, _ => 'a');
  }

  lemma {:induction false} SessionsBounded(used: set<nat>) returns (n: nat)
    ensures forall x :: x in used ==> x < n
  {
    n := 0;
    if used != {} {
      var x :| x in used;
      var m := SessionsBounded(used - {x});
      n := if x + 1 > m then x + 1 else m;
      forall z | z in used
        ensures z < n
      {
        assert z == x || z in used - {x};
      }
    }
  }

  /** Every slot's owner has a session inside, and so does `gone`, who has no slot any more. */
  ghost predicate Haunted(limits: map<string, int>, y: System, key: string, gone: string) {
    && Safe(limits, y.store)
    && SlotsAt(y.store, key).items.Keys <= OwnersInside(y.inside, key)
    && gone in OwnersInside(y.inside, key) && !SlotsAt(y.store, key).Has(gone)
  }

  /** A new owner takes a free slot. */
  lemma NewcomerEnters(limits: map<string, int>, y: System, key: string, gone: string, session: nat, owner: string, now: real)
    requires Haunted(limits, y, key, gone) && |SlotsAt(y.store, key).keys| < Bound(limits, key)
    requires session !in y.inside && owner !in OwnersInside(y.inside, key)
    ensures var z := Advance(limits, y, Enter(session, key, owner, now));
            Haunted(limits, z, key, gone) && |SlotsAt(z.store, key).keys| == |SlotsAt(y.store, key).keys| + 1
  {
    hide Safe;
    AdvanceSafe(limits, y, Enter(session, key, owner, now));
    var slots := SlotsAt(y.store, key);
    var z := Advance(limits, y, Enter(session, key, owner, now));
    SlotFacts(limits, y.store, key, owner);
    assert !slots.Has(owner);
    PutLookup(slots, owner, Slot(key, owner, now, now, 1));
    assert SlotsAt(z.store, key) == slots.Put(owner, Slot(key, owner, now, now, 1));
    assert z.inside == y.inside[session := (key, owner)];
    forall o | o in OwnersInside(y.inside, key)
      ensures o in OwnersInside(z.inside, key)
    {
      var x :| x in y.inside && y.inside[x] == (key, o);
      assert z.inside[x] == (key, o);
    }
    assert z.inside[session] == (key, owner);
  }

  /** Newcomers fill the free slots while the evicted owner is still inside. */
  lemma {:induction false} FillUp(limits: map<string, int>, y: System, key: string, gone: string, now: real) returns (moves: seq<Move>)
    requires Haunted(limits, y, key, gone)
    ensures Civil(limits, y, moves, key) && |OwnersInside(Play(limits, y, moves).inside, key)| > Bound(limits, key)
    ensures forall i :: 0 <= i < |moves| ==> moves[i].Enter? && moves[i].now == now
    decreases Bound(limits, key) - |SlotsAt(y.store, key).keys|
  {
    hide Advance, Haunted;
    if |SlotsAt(y.store, key).keys| < Bound(limits, key) {
      var session := SessionsBounded(y.inside.Keys);
      var owner := FreshOwner(OwnersInside(y.inside, key));
      var m := Enter(session, key, owner, now);
      NewcomerEnters(limits, y, key, gone, session, owner, now);
      var rest := FillUp(limits, Advance(limits, y, m), key, gone, now);
      moves := [m] + rest;
      assert moves[1..] == rest;
    } else {
      moves := [];
      FullHouse(limits, y, key, gone);
    }
  }

  lemma FullHouse(limits: map<string, int>, y: System, key: string, gone: string)
    requires Haunted(limits, y, key, gone) && |SlotsAt(y.store, key).keys| >= Bound(limits, key)
    ensures |OwnersInside(y.inside, key)| > Bound(limits, key)
  {
    hide Safe;
    SlotFacts(limits, y.store, key, gone);
    var slots := SlotsAt(y.store, key);
    DictSize(slots);
    assert gone !in slots.items.Keys;
    SubsetSize(slots.items.Keys + {gone}, OwnersInside(y.inside, key));
  }

  lemma EvictedIsInside(limits: map<string, int>, y: System, key: string, threshold: real, gone: string)
    requires Balanced(limits, y, key) && gone in StaleAt(y.store, key, threshold)
    ensures Haunted(limits, Advance(limits, y, Clean(key, threshold)), key, gone)
  {
    hide Safe, Sessions, Refs, CleanUp;
    var z := Advance(limits, y, Clean(key, threshold));
    AdvanceSafe(limits, y, Clean(key, threshold));
    OwnersHoldSlots(limits, y, key);
    StaleOwnersAre(SlotsAt(y.store, key), SlotsAt(y.store, key).keys, threshold);
    CleanUpFreesStale(limits, y.store, key, threshold, gone);
    forall o | o in SlotsAt(z.store, key).items.Keys
      ensures o in OwnersInside(z.inside, key)
    {
      CleanUpFreesStale(limits, y.store, key, threshold, o);
      assert SlotsAt(z.store, key).Has(o);
    }
  }

  /** At some instant, newcomers that enter, and nothing else, bring the sessions of more owners inside than the limit allows. */
  ghost predicate CanExceed(limits: map<string, int>, y: System, key: string, now: real) {
    exists moves :: Civil(limits, y, moves, key) && EnterAt(moves, now) && |OwnersInside(Play(limits, y, moves).inside, key)| > Bound(limits, key)
  }

  ghost predicate EnterAt(moves: seq<Move>, now: real) {
    forall i :: 0 <= i < |moves| ==> moves[i].Enter? && moves[i].now == now
  }

  /** Whatever follows, unless it evicts another slot of the key, the limit holds. */
  ghost predicate NeverExceeds(limits: map<string, int>, y: System, key: string) {
    forall moves :: Civil(limits, y, moves, key) ==> |OwnersInside(Play(limits, y, moves).inside, key)| <= Bound(limits, key)
  }

  /**
   From a balanced state, a cleanup endangers the limit exactly when it finds a stale slot: the
   evicted owner's sessions are still inside when newcomers fill the freed slots, at any instant.
   If it finds none, nothing that follows exceeds the limit.
   */
  lemma EvictionOverlaps(limits: map<string, int>, y: System, key: string, threshold: real, now: real)
    requires Balanced(limits, y, key)
    ensures CanExceed(limits, Advance(limits, y, Clean(key, threshold)), key, now) <==> StaleAt(y.store, key, threshold) != []
    ensures NeverExceeds(limits, Advance(limits, y, Clean(key, threshold)), key) <==> StaleAt(y.store, key, threshold) == []
  {
    hide Play, Civil, Balanced, Advance, StaleAt;
    var z := Advance(limits, y, Clean(key, threshold));
    if StaleAt(y.store, key, threshold) != [] {
      var gone := StaleAt(y.store, key, threshold)[0];
      EvictedIsInside(limits, y, key, threshold, gone);
      var moves := FillUp(limits, z, key, gone, now);
      assert EnterAt(moves, now);
    } else {
      AdvanceBalances(limits, y, Clean(key, threshold), key);
      forall moves | Civil(limits, z, moves, key)
        ensures |OwnersInside(Play(limits, z, moves).inside, key)| <= Bound(limits, key)
      {
        PlayIsBalanced(limits, z, moves, key);
        OwnersHoldSlots(limits, Play(limits, z, moves), key);
      }
    }
  }

  /** With a limit of one, an owner that was evicted after a second is still inside when another enters. */
  lemma TwoOwnersWhereOneIsTheLimit(key: string, a: string, b: string)
    requires a != b
    ensures var moves := [Enter(0, key, a, 0.0), Clean(key, 1.0), Enter(1, key, b, 2.0)];
            Bound(map[], key) == 1 && OwnersInside(Play(map[], START, moves).inside, key) == {a, b}
  {
    hide Play;
    var moves := [Enter(0, key, a, 0.0), Clean(key, 1.0), Enter(1, key, b, 2.0)];
    var y1 := Advance(map[], START, moves[0]);
    FirstEnters(START, key, a);
    var y2 := Advance(map[], y1, moves[1]);
    AloneIsEvicted(y1, key, a);
    var y3 := Advance(map[], y2, moves[2]);
    assert y3.inside == map[0 := (key, a), 1 := (key, b)];
    assert Play(map[], START, moves) == y3 by {
      hide *;
      ThreeMoves(moves);
    }
    assert y3.inside[0] == (key, a) && y3.inside[1] == (key, b);
  }

  lemma AloneIsEvicted(y: System, key: string, a: string)
    requires SlotsAt(y.store, key) == Dict([a], map[a := Slot(key, a, 0.0, 0.0, 1)])
    ensures var z := Advance(map[], y, Clean(key, 1.0));
            SlotsAt(z.store, key).items == map[] && SlotsAt(z.store, key).keys == [] && z.inside == y.inside
  {
    hide Notify;
    assert [a][..0] == [] && Unlisted([a], a) == [];
    assert Stale(SlotsAt(y.store, key), a, 1.0) && StaleOwners(SlotsAt(y.store, key), [], 1.0) == [];
    assert StaleOwners(SlotsAt(y.store, key), [a], 1.0) == [] + [a];
    assert StaleAt(y.store, key, 1.0) == [a];
    assert RemoveAll(SlotsAt(y.store, key), [a]) == SlotsAt(y.store, key).Remove(a);
    NotifyKeepsSlots(SetSlots(y.store, key, SlotsAt(y.store, key).Remove(a)), key);
  }

  lemma ThreeMoves(moves: seq<Move>)
    requires |moves| == 3
    ensures Play(map[], START, moves)
         == Advance(map[], Advance(map[], Advance(map[], START, moves[0]), moves[1]), moves[2])
  {
    hide Advance;
    assert moves[1..][1..] == moves[2..] && moves[2..][1..] == [];
    var y1 := Advance(map[], START, moves[0]);
    var y2 := Advance(map[], y1, moves[1]);
    assert Play(map[], y2, moves[2..]) == Advance(map[], y2, moves[2]);
    assert Play(map[], y1, moves[1..]) == Play(map[], y2, moves[2..]);
  }

  // --- whom a release wakes -----------------------------------------------------------------

  /** A session that sleeps on one of the events. */
  ghost predicate SomeoneOn(asleep: map<nat, nat>, events: set<nat>) {
    exists x :: x in asleep && asleep[x] in events
  }

  /**
   The last release of a slot wakes a sleeping session exactly when the owner that has been listed
   longest still has a session asleep on the listed event.
   */
  lemma LeaveWakes(limits: map<string, int>, y: System, session: nat)
    requires session in y.inside && Balanced(limits, y, y.inside[session].0)
    requires Refs(y.store, y.inside[session].0, y.inside[session].1) == 1
    ensures var z, w := Advance(limits, y, Leave(session)), WaitersAt(y.store, y.inside[session].0);
            && z.asleep == y.asleep
            && (SomeoneOn(z.asleep, z.store.fired - y.store.fired)
                <==> w.keys != [] && w.keys[0] in w.items && SomeoneOn(y.asleep, {w.items[w.keys[0]]}))
  {
    hide Safe, Sessions, Release;
    var p := y.inside[session];
    SlotFacts(limits, y.store, p.0, p.1);
    LastReleaseWakes(limits, y.store, p.0, p.1);
    if WaitersAt(y.store, p.0).keys != [] {
      FirstIsListed(limits, y.store, p.0);
    }
  }

  /** A stale listing swallows the wake-up: a session that has timed out is listed first, and the one that still waits sleeps on. */
  lemma LostWakeUp(key: string, a: string, b: string, d: string)
    requires a != b && a != d && b != d
    ensures var moves := [Enter(0, key, a, 0.0), Enter(1, key, b, 0.0), TimeOut(1), Enter(2, key, d, 0.0), Leave(0)];
            var y := Play(map[], START, moves);
            && Civil(map[], START, moves, key)
            && SlotsAt(y.store, key).keys == [] && y.asleep == map[2 := 1] && y.store.fired == {0}
  {
    hide Play, Civil, TryAcquire, Release, SlotsAt, WaitersAt;
    var moves := [Enter(0, key, a, 0.0), Enter(1, key, b, 0.0), TimeOut(1), Enter(2, key, d, 0.0), Leave(0)];
    var y1 := Advance(map[], START, moves[0]);
    var y2 := Advance(map[], y1, moves[1]);
    var y3 := Advance(map[], y2, moves[2]);
    var y4 := Advance(map[], y3, moves[3]);
    var y5 := Advance(map[], y4, moves[4]);
    ThreeEnter(y1, y2, y3, y4, key, a, b, d);
    ListedFirst(y4.store, key, a, b);
    FiveMoves(moves, y1, y2, y3, y4, y5, key);
  }

  lemma ThreeEnter(y1: System, y2: System, y3: System, y4: System, key: string, a: string, b: string, d: string)
    requires a != b && a != d && b != d
    requires y1 == Advance(map[], START, Enter(0, key, a, 0.0)) && y2 == Advance(map[], y1, Enter(1, key, b, 0.0))
    requires y3 == Advance(map[], y2, TimeOut(1)) && y4 == Advance(map[], y3, Enter(2, key, d, 0.0))
    ensures SlotsAt(y4.store, key) == Dict([a], map[a := Slot(key, a, 0.0, 0.0, 1)])
    ensures y4.asleep == map[2 := 1] && y4.store.fired == {} && y4.inside == map[0 := (key, a)]
    ensures WaitersAt(y4.store, key) == Dict([b, d], map[b := 0, d := 1])
    ensures y1.inside == y2.inside == y3.inside == y4.inside
  {
    FirstEnters(START, key, a);
    MustWait(y1, 1, key, a, b);
    MustWait(y3, 2, key, a, d);
  }

  lemma FirstEnters(y: System, key: string, a: string)
    requires y == START
    ensures var z := Advance(map[], y, Enter(0, key, a, 0.0));
            && SlotsAt(z.store, key) == Dict([a], map[a := Slot(key, a, 0.0, 0.0, 1)])
            && z.store.waiting == map[] && z.store.fired == {} && z.store.nextEvent == 0
            && z.inside == map[0 := (key, a)] && z.asleep == map[]
  {
  }

  lemma MustWait(y: System, session: nat, key: string, a: string, o: string)
    requires SlotsAt(y.store, key).keys == [a] && !SlotsAt(y.store, key).Has(o)
    ensures var z := Advance(map[], y, Enter(session, key, o, 0.0));
            && z.store == y.store.(waiting := z.store.waiting, nextEvent := y.store.nextEvent + 1)
            && WaitersAt(z.store, key) == WaitersAt(y.store, key).Put(o, y.store.nextEvent)
            && z.inside == y.inside && z.asleep == y.asleep[session := y.store.nextEvent]
  {
  }

  lemma ListedFirst(s: Store, key: string, a: string, b: string)
    requires SlotsAt(s, key) == Dict([a], map[a := Slot(key, a, 0.0, 0.0, 1)]) && s.fired == {}
    requires |WaitersAt(s, key).keys| >= 1 && WaitersAt(s, key).keys[0] == b && b in WaitersAt(s, key).items && WaitersAt(s, key).items[b] == 0
    ensures var t := Release(s, key, a).store; SlotsAt(t, key).keys == [] && t.fired == {0}
  {
    assert [a][..0] == [] && Unlisted([a], a) == [];
  }

  lemma FiveMoves(moves: seq<Move>, y1: System, y2: System, y3: System, y4: System, y5: System, key: string)
    requires |moves| == 5 && forall i :: 0 <= i < 5 ==> !moves[i].Clean?
    requires y1 == Advance(map[], START, moves[0]) && y2 == Advance(map[], y1, moves[1]) && y3 == Advance(map[], y2, moves[2])
    requires y4 == Advance(map[], y3, moves[3]) && y5 == Advance(map[], y4, moves[4])
    requires moves[0].Enter? ==> moves[0].session !in START.inside
    requires moves[1].Enter? ==> moves[1].session !in y1.inside
    requires moves[2].Enter? ==> moves[2].session !in y2.inside
    requires moves[3].Enter? ==> moves[3].session !in y3.inside
    requires moves[4].Enter? ==> moves[4].session !in y4.inside
    ensures Play(map[], START, moves) == y5 && Civil(map[], START, moves, key)
  {
    hide Advance, StaleAt;
    var m1, m2, m3, m4 := moves[1..], moves[2..], moves[3..], moves[4..];
    assert m4[1..] == [] && m3[1..] == m4 && m2[1..] == m3 && m1[1..] == m2;
    assert Play(map[], y4, m4) == y5 && Civil(map[], y4, m4, key);
    assert Play(map[], y3, m3) == y5 && Civil(map[], y3, m3, key);
    assert Play(map[], y2, m2) == y5 && Civil(map[], y2, m2, key);
    assert Play(map[], y1, m1) == y5 && Civil(map[], y1, m1, key);
  }
}
