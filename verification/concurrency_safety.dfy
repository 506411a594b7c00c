/**
 Slot safety under every interleaving: capacity, reference counts, the waiters' events, and,
 while nothing is cleaned up, the balance of acquires and releases.
 */
module ConcurrencySafety {
  import opened Dictionaries
  import opened Concurrency

  ghost predicate SlotsOk(slots: Dict<string, Slot>, key: string, limit: int) {
    && slots.Ok() && |slots.keys| <= (if limit > 0 then limit else 0)
    && forall owner :: slots.Has(owner) ==>
         slots.Get(owner).key == key && slots.Get(owner).owner == owner && slots.Get(owner).refCount >= 1
  }

  /** Every event a waiter is listed with is unset. */
  ghost predicate Asleep(waiters: Dict<string, nat>, fired: set<nat>, next: nat) {
    waiters.Ok() && forall owner :: waiters.Has(owner) ==> waiters.Get(owner) !in fired && waiters.Get(owner) < next
  }

  /** No two waiters share an event. */
  ghost predicate Apart(s: Store) {
    forall k, o, l, p :: WaitersAt(s, k).Has(o) && WaitersAt(s, l).Has(p) && (k != l || o != p) ==>
      WaitersAt(s, k).Get(o) != WaitersAt(s, l).Get(p)
  }

  ghost predicate Safe(limits: map<string, int>, s: Store) {
    && (forall key :: SlotsOk(SlotsAt(s, key), key, LimitOf(limits, key)))
    && (forall key :: Asleep(WaitersAt(s, key), s.fired, s.nextEvent))
    && (forall e :: e in s.fired ==> e < s.nextEvent)
    && Apart(s)
  }

  lemma NewIsSafe(limits: map<string, int>)
    ensures Safe(limits, New())
  {
  }

  /** Replacing one key's slots. */
  lemma SetSlotsSafe(limits: map<string, int>, s: Store, key: string, slots: Dict<string, Slot>)
    requires Safe(limits, s) && SlotsOk(slots, key, LimitOf(limits, key))
    ensures Safe(limits, SetSlots(s, key, slots))
  {
    hide SlotsOk, Asleep;
    var t := SetSlots(s, key, slots);
    assert forall k :: WaitersAt(t, k) == WaitersAt(s, k);
    assert forall k :: SlotsAt(t, k) == if k == key then slots else SlotsAt(s, k);
  }

  lemma CountSafe(limits: map<string, int>, s: Store, key: string, owner: string)
    requires Safe(limits, s)
    ensures Safe(limits, CountAcquired(s, key, owner)) && Safe(limits, CountReleased(s, key, owner))
  {
    hide SlotsOk, Asleep;
    assert forall k :: SlotsAt(CountAcquired(s, key, owner), k) == SlotsAt(s, k) && SlotsAt(CountReleased(s, key, owner), k) == SlotsAt(s, k);
    assert forall k :: WaitersAt(CountAcquired(s, key, owner), k) == WaitersAt(s, k) && WaitersAt(CountReleased(s, key, owner), k) == WaitersAt(s, k);
  }

  lemma WaitersAfterWait(s: Store, key: string, owner: string)
    ensures forall k :: WaitersAt(Wait(s, key, owner), k) == if k == key then WaitersAt(s, key).Put(owner, s.nextEvent) else WaitersAt(s, k)
  {
  }

  lemma WaitAsleep(waiters: Dict<string, nat>, fired: set<nat>, next: nat, owner: string)
    requires Asleep(waiters, fired, next) && forall e :: e in fired ==> e < next
    ensures Asleep(waiters, fired, next + 1) && Asleep(waiters.Put(owner, next), fired, next + 1)
  {
    PutOk(waiters, owner, next);
    PutLookup(waiters, owner, next);
  }

  lemma WaitApart(limits: map<string, int>, s: Store, key: string, owner: string)
    requires Safe(limits, s)
    ensures Apart(Wait(s, key, owner))
  {
    hide SlotsOk, Wait, WaitersAt;
    var t := Wait(s, key, owner);
    WaitersAfterWait(s, key, owner);
    PutLookup(WaitersAt(s, key), owner, s.nextEvent);
    forall k, o, l, p | WaitersAt(t, k).Has(o) && WaitersAt(t, l).Has(p) && (k != l || o != p)
      ensures WaitersAt(t, k).Get(o) != WaitersAt(t, l).Get(p)
    {
      assert Asleep(WaitersAt(s, k), s.fired, s.nextEvent) && Asleep(WaitersAt(s, l), s.fired, s.nextEvent);
    }
  }

  lemma WaitSafe(limits: map<string, int>, s: Store, key: string, owner: string)
    requires Safe(limits, s)
    ensures Safe(limits, Wait(s, key, owner))
  {
    hide SlotsOk, Asleep, Apart;
    var t := Wait(s, key, owner);
    WaitersAfterWait(s, key, owner);
    WaitApart(limits, s, key, owner);
    assert forall k :: SlotsAt(t, k) == SlotsAt(s, k);
    forall k
      ensures Asleep(WaitersAt(t, k), t.fired, t.nextEvent)
    {
      assert Asleep(WaitersAt(s, k), s.fired, s.nextEvent);
      WaitAsleep(WaitersAt(s, k), s.fired, s.nextEvent, owner);
    }
  }

  /** A waiter leaves the map, and its event may be set. */
  lemma DropSafe(limits: map<string, int>, s: Store, key: string, owner: string, t: Store)
    requires Safe(limits, s) && WaitersAt(s, key).Has(owner)
    requires t == s.(waiting := s.waiting[key := WaitersAt(s, key).Remove(owner)], fired := t.fired)
    requires t.fired == s.fired || t.fired == s.fired + {WaitersAt(s, key).Get(owner)}
    ensures Safe(limits, t)
  {
    hide SlotsOk;
    RemoveOk(WaitersAt(s, key), owner);
    RemoveLookup(WaitersAt(s, key), owner);
    assert forall k :: SlotsAt(t, k) == SlotsAt(s, k);
    assert Asleep(WaitersAt(s, key), s.fired, s.nextEvent);
    assert forall k :: WaitersAt(t, k) == if k == key then WaitersAt(s, key).Remove(owner) else WaitersAt(s, k);
    forall k
      ensures Asleep(WaitersAt(t, k), t.fired, t.nextEvent)
    {
      assert Asleep(WaitersAt(s, k), s.fired, s.nextEvent);
    }
    forall k, o, l, p | WaitersAt(t, k).Has(o) && WaitersAt(t, l).Has(p) && (k != l || o != p)
      ensures WaitersAt(t, k).Get(o) != WaitersAt(t, l).Get(p)
    {
      assert WaitersAt(s, k).Has(o) && WaitersAt(s, l).Has(p);
    }
  }

  lemma {:induction false} FirstAsleepBounds(waiters: Dict<string, nat>, fired: set<nat>, i: nat)
    requires i <= |waiters.keys|
    ensures i <= FirstAsleep(waiters, fired, i) <= |waiters.keys|
    decreases |waiters.keys| - i
  {
    if i < |waiters.keys| {
      FirstAsleepBounds(waiters, fired, i + 1);
    }
  }

  /** Since all listed events are unset, the waiter that is woken is the one that has been listed longest; there is one whenever anyone waits. */
  lemma NotifyWakesFirst(limits: map<string, int>, s: Store, key: string)
    requires Safe(limits, s)
    ensures var w := WaitersAt(s, key);
            Notify(s, key) ==
              if w.keys == [] then s
              else s.(fired := s.fired + {w.items[w.keys[0]]}, waiting := s.waiting[key := w.Remove(w.keys[0])])
  {
    assert Asleep(WaitersAt(s, key), s.fired, s.nextEvent);
    FirstAsleepBounds(WaitersAt(s, key), s.fired, 0);
  }

  lemma NotifySafe(limits: map<string, int>, s: Store, key: string)
    requires Safe(limits, s)
    ensures Safe(limits, Notify(s, key))
  {
    hide Safe;
    NotifyWakesFirst(limits, s, key);
    var w := WaitersAt(s, key);
    if w.keys != [] {
      FirstIsListed(limits, s, key);
      DropSafe(limits, s, key, w.keys[0], Notify(s, key));
    }
  }

  lemma FirstIsListed(limits: map<string, int>, s: Store, key: string)
    requires Safe(limits, s) && WaitersAt(s, key).keys != []
    ensures WaitersAt(s, key).Has(WaitersAt(s, key).keys[0])
  {
    assert Asleep(WaitersAt(s, key), s.fired, s.nextEvent);
  }

  // --- the steps ------------------------------------------------------------------

  lemma PutSlotOk(slots: Dict<string, Slot>, key: string, limit: int, owner: string, slot: Slot)
    requires SlotsOk(slots, key, limit) && slot.key == key && slot.owner == owner && slot.refCount >= 1
    requires slots.Has(owner) || |slots.keys| < limit
    ensures SlotsOk(slots.Put(owner, slot), key, limit)
  {
    PutOk(slots, owner, slot);
    PutLookup(slots, owner, slot);
  }

  lemma RemoveSlotOk(slots: Dict<string, Slot>, key: string, limit: int, owner: string)
    requires SlotsOk(slots, key, limit)
    ensures SlotsOk(slots.Remove(owner), key, limit)
  {
    RemoveOk(slots, owner);
    RemoveLookup(slots, owner);
  }

  lemma {:induction false} RemoveAllOk(slots: Dict<string, Slot>, key: string, limit: int, owners: seq<string>)
    requires SlotsOk(slots, key, limit)
    ensures SlotsOk(RemoveAll(slots, owners), key, limit)
  {
    hide SlotsOk;
    if owners != [] {
      RemoveAllOk(slots, key, limit, owners[..|owners| - 1]);
      RemoveSlotOk(RemoveAll(slots, owners[..|owners| - 1]), key, limit, owners[|owners| - 1]);
    }
  }

  lemma SlotFacts(limits: map<string, int>, s: Store, key: string, owner: string)
    requires Safe(limits, s)
    ensures SlotsOk(SlotsAt(s, key), key, LimitOf(limits, key))
    ensures SlotsAt(s, key).Has(owner) ==>
      var slot := SlotsAt(s, key).Get(owner); slot.key == key && slot.owner == owner && slot.refCount >= 1
  {
    hide Asleep, Apart;
    assert SlotsOk(SlotsAt(s, key), key, LimitOf(limits, key));
  }

  lemma AcquireSafe(limits: map<string, int>, s: Store, key: string, owner: string, now: real)
    requires Safe(limits, s)
    ensures Safe(limits, TryAcquire(s, key, owner, LimitOf(limits, key), now).store)
  {
    hide Safe, SlotsOk, SetSlots, CountAcquired, Wait;
    var slots, limit := SlotsAt(s, key), LimitOf(limits, key);
    SlotFacts(limits, s, key, owner);
    if slots.Has(owner) || |slots.keys| < limit {
      var slot := if slots.Has(owner) then Shared(slots.Get(owner), now) else Slot(key, owner, now, now, 1);
      PutSlotOk(slots, key, limit, owner, slot);
      SetSlotsSafe(limits, s, key, slots.Put(owner, slot));
      CountSafe(limits, SetSlots(s, key, slots.Put(owner, slot)), key, owner);
    } else {
      WaitSafe(limits, s, key, owner);
    }
  }

  lemma ReleaseSafe(limits: map<string, int>, s: Store, key: string, owner: string)
    requires Safe(limits, s)
    ensures Safe(limits, Release(s, key, owner).store)
  {
    hide Safe, SlotsOk, SetSlots, CountReleased, Notify;
    var slots, limit := SlotsAt(s, key), LimitOf(limits, key);
    SlotFacts(limits, s, key, owner);
    if slots.Has(owner) {
      var slot := slots.Get(owner);
      var left := if slot.refCount - 1 > 0 then slots.Put(owner, slot.(refCount := slot.refCount - 1)) else slots.Remove(owner);
      if slot.refCount - 1 > 0 {
        PutSlotOk(slots, key, limit, owner, slot.(refCount := slot.refCount - 1));
      }
      RemoveSlotOk(slots, key, limit, owner);
      SetSlotsSafe(limits, s, key, left);
      CountSafe(limits, SetSlots(s, key, left), key, owner);
      NotifySafe(limits, CountReleased(SetSlots(s, key, left), key, owner), key);
    }
  }

  lemma StepSafe(limits: map<string, int>, s: Store, step: Step)
    requires Safe(limits, s)
    ensures Safe(limits, Apply(limits, s, step))
  {
    hide Safe, SlotsOk, SetSlots, Notify, TryAcquire, Release;
    match step
    case Acquiring(key, owner, now) => AcquireSafe(limits, s, key, owner, now);
    case Cancelled(key, owner, event) =>
      if Abandon(s, key, owner, event) != s {
        DropSafe(limits, s, key, owner, Abandon(s, key, owner, event));
      }
    case Releasing(key, owner) => ReleaseSafe(limits, s, key, owner);
    case Beating(key, owner, now) =>
      var slots := SlotsAt(s, key);
      SlotFacts(limits, s, key, owner);
      if slots.Has(owner) {
        PutSlotOk(slots, key, LimitOf(limits, key), owner, slots.Get(owner).(heartbeatAt := now));
        SetSlotsSafe(limits, s, key, slots.Put(owner, slots.Get(owner).(heartbeatAt := now)));
      }
    case Cleaning(key, threshold) =>
      var slots := SlotsAt(s, key);
      var stale := StaleOwners(slots, slots.keys, threshold);
      SlotFacts(limits, s, key, "");
      RemoveAllOk(slots, key, LimitOf(limits, key), stale);
      SetSlotsSafe(limits, s, key, RemoveAll(slots, stale));
      NotifySafe(limits, SetSlots(s, key, RemoveAll(slots, stale)), key);
  }

  lemma {:induction false} RunIsSafe(limits: map<string, int>, steps: seq<Step>)
    ensures Safe(limits, Run(limits, steps))
  {
    hide Safe, Apply, New;
    if steps == [] {
      NewIsSafe(limits);
    } else {
      RunIsSafe(limits, steps[..|steps| - 1]);
      StepSafe(limits, Run(limits, steps[..|steps| - 1]), steps[|steps| - 1]);
    }
  }

  /** Capacity: in every interleaving a key has at most as many slots as its limit, each held at least once. */
  lemma NeverOverCapacity(limits: map<string, int>, steps: seq<Step>, key: string)
    ensures |SlotsAt(Run(limits, steps), key).items| <= if LimitOf(limits, key) > 0 then LimitOf(limits, key) else 0
    ensures forall owner :: SlotsAt(Run(limits, steps), key).Has(owner) ==> SlotsAt(Run(limits, steps), key).Get(owner).refCount >= 1
  {
    hide Run, Safe;
    RunIsSafe(limits, steps);
    SlotFacts(limits, Run(limits, steps), key, "");
    DictSize(SlotsAt(Run(limits, steps), key));
  }

  lemma DictSize<V>(d: Dict<string, V>)
    requires d.Ok()
    ensures |d.items| == |d.keys|
  {
    assert forall k :: k in d.keys <==> k in d.items.Keys;
    ListSize(d.keys, d.items.Keys);
  }

  lemma {:induction false} ListSize(keys: seq<string>, all: set<string>)
    requires forall i, j :: 0 <= i < j < |keys| ==> keys[i] != keys[j]
    requires forall k :: k in keys <==> k in all
    ensures |all| == |keys|
  {
    if keys == [] {
      assert all == {};
    } else {
      var n := |keys| - 1;
      assert keys == keys[..n] + [keys[n]];
      ListSize(keys[..n], all - {keys[n]});
    }
  }

  lemma WaitersAreAsleep(limits: map<string, int>, steps: seq<Step>, key: string, owner: string)
    requires WaitersAt(Run(limits, steps), key).Has(owner)
    ensures WaitersAt(Run(limits, steps), key).Get(owner) !in Run(limits, steps).fired
  {
    hide Run, SlotsOk, Apart;
    RunIsSafe(limits, steps);
    assert Asleep(WaitersAt(Run(limits, steps), key), Run(limits, steps).fired, Run(limits, steps).nextEvent);
  }

  // --- acquires and releases ------------------------------------------------------------

  function Refs(s: Store, key: string, owner: string): int {
    if SlotsAt(s, key).Has(owner) then SlotsAt(s, key).Get(owner).refCount else 0
  }

  function Owed(s: Store, key: string, owner: string): int {
    Tally(s.log.acquired, (key, owner)) - Tally(s.log.released, (key, owner))
  }

  lemma NotifyKeepsSlots(s: Store, key: string)
    ensures Notify(s, key).slots == s.slots && Notify(s, key).log == s.log
  {
  }

  lemma GrantBalances(s: Store, k: string, o: string, slot: Slot, key: string, owner: string)
    requires slot.refCount == Refs(s, k, o) + 1
    ensures var t := CountAcquired(SetSlots(s, k, SlotsAt(s, k).Put(o, slot)), k, o);
            && Refs(t, key, owner) == Refs(s, key, owner) + (if k == key && o == owner then 1 else 0)
            && Owed(t, key, owner) == Owed(s, key, owner) + if k == key && o == owner then 1 else 0
  {
    PutLookup(SlotsAt(s, k), o, slot);
  }

  lemma AcquireBalances(s: Store, k: string, o: string, limit: int, now: real, key: string, owner: string)
    requires Refs(s, key, owner) == Owed(s, key, owner)
    ensures var t := TryAcquire(s, k, o, limit, now).store; Refs(t, key, owner) == Owed(t, key, owner)
  {
    hide CountAcquired, SetSlots, Tally;
    var slots := SlotsAt(s, k);
    if slots.Has(o) || |slots.keys| < limit {
      GrantBalances(s, k, o, if slots.Has(o) then Shared(slots.Get(o), now) else Slot(k, o, now, now, 1), key, owner);
    }
  }

  lemma ReleaseBalances(s: Store, k: string, o: string, key: string, owner: string)
    requires Refs(s, key, owner) == Owed(s, key, owner) && (SlotsAt(s, k).Has(o) ==> SlotsAt(s, k).Get(o).refCount >= 1)
    ensures var t := Release(s, k, o).store; Refs(t, key, owner) == Owed(t, key, owner)
  {
    hide Notify;
    var slots := SlotsAt(s, k);
    if slots.Has(o) {
      var slot := slots.Get(o);
      PutLookup(slots, o, slot.(refCount := slot.refCount - 1));
      RemoveLookup(slots, o);
      NotifyKeepsSlots(CountReleased(SetSlots(s, k, slots.Remove(o)), k, o), k);
    }
  }

  lemma BeatBalances(s: Store, k: string, o: string, now: real, key: string, owner: string)
    ensures var t := Heartbeat(s, k, o, now).store; Refs(t, key, owner) == Refs(s, key, owner) && t.log == s.log
  {
    var slots := SlotsAt(s, k);
    if slots.Has(o) {
      PutLookup(slots, o, slots.Get(o).(heartbeatAt := now));
    }
  }

  lemma StepBalances(limits: map<string, int>, s: Store, step: Step, key: string, owner: string)
    requires Safe(limits, s) && !step.Cleaning? && Refs(s, key, owner) == Owed(s, key, owner)
    ensures Refs(Apply(limits, s, step), key, owner) == Owed(Apply(limits, s, step), key, owner)
  {
    hide Safe, SlotsOk, TryAcquire, Release, Heartbeat;
    match step
    case Acquiring(k, o, now) => AcquireBalances(s, k, o, LimitOf(limits, k), now, key, owner);
    case Releasing(k, o) =>
      SlotFacts(limits, s, k, o);
      ReleaseBalances(s, k, o, key, owner);
    case Beating(k, o, now) => BeatBalances(s, k, o, now, key, owner);
    case Cancelled(_, _, _) =>
  }

  /**
   Without cleanup the reference count is the number of successful acquires less the number of
   successful releases, and a slot exists exactly while that difference is positive.
   */
  lemma {:induction false} RefsAreOwed(limits: map<string, int>, steps: seq<Step>, key: string, owner: string)
    requires forall i :: 0 <= i < |steps| ==> !steps[i].Cleaning?
    ensures Refs(Run(limits, steps), key, owner) == Owed(Run(limits, steps), key, owner)
    ensures SlotsAt(Run(limits, steps), key).Has(owner) <==> Owed(Run(limits, steps), key, owner) > 0
  {
    hide Apply, Safe;
    RunIsSafe(limits, steps);
    SlotFacts(limits, Run(limits, steps), key, owner);
    if steps != [] {
      var n := |steps| - 1;
      RefsAreOwed(limits, steps[..n], key, owner);
      RunIsSafe(limits, steps[..n]);
      StepBalances(limits, Run(limits, steps[..n]), steps[n], key, owner);
    }
  }
}
