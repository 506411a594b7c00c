/**
 Who survives a cleanup. A slot's heartbeat is the latest instant at which its owner acquired it
 or reported, and a cleanup keeps the slot exactly if that was at or after the threshold.
 */
module ConcurrencyHeartbeats {
  import opened Wrappers
  import opened Dictionaries
  import opened Concurrency
  import opened ConcurrencySafety
  import opened ConcurrencyClients

  predicate Holds(limits: map<string, int>, steps: seq<Step>, key: string, owner: string) {
    SlotsAt(Run(limits, steps), key).Has(owner)
  }

  /** The last step is a sign of life: an acquire or a heartbeat after which the owner holds its slot. */
  predicate SignOfLife(limits: map<string, int>, steps: seq<Step>, key: string, owner: string)
    requires steps != []
  {
    var e := steps[|steps| - 1];
    (e.Acquiring? || e.Beating?) && e.key == key && e.owner == owner && Holds(limits, steps, key, owner)
  }

  /** The instant of the latest sign of life. */
  function LastSeen(limits: map<string, int>, steps: seq<Step>, key: string, owner: string): real {
    if steps == [] then 0.0
    else if SignOfLife(limits, steps, key, owner) then steps[|steps| - 1].now
    else LastSeen(limits, steps[..|steps| - 1], key, owner)
  }

  /** The instant of the acquire that took the slot. */
  function TakenAt(limits: map<string, int>, steps: seq<Step>, key: string, owner: string): real {
    if steps == [] then 0.0
    else
      var front, e := steps[..|steps| - 1], steps[|steps| - 1];
      if e.Acquiring? && SignOfLife(limits, steps, key, owner) && !Holds(limits, front, key, owner) then e.now
      else TakenAt(limits, front, key, owner)
  }

  // --- one step ---------------------------------------------------------------------------

  lemma NotifyKeepsAll(s: Store, key: string)
    ensures forall k :: SlotsAt(Notify(s, key), k) == SlotsAt(s, k)
  {
  }

  /** An attempt: the caller's slot is renewed or taken, and every other one stays. */
  lemma AttemptSigns(s: Store, k: string, o: string, limit: int, now: real, key: string, owner: string)
    requires SlotsAt(s, key).Ok()
    ensures var t := TryAcquire(s, k, o, limit, now).store;
            if k == key && o == owner then
              && (SlotsAt(t, key).Has(owner) ==>
                    SlotsAt(t, key).Get(owner).heartbeatAt == now
                    && SlotsAt(t, key).Get(owner).acquiredAt == if SlotsAt(s, key).Has(owner) then SlotsAt(s, key).Get(owner).acquiredAt else now)
              && (SlotsAt(s, key).Has(owner) ==> SlotsAt(t, key).Has(owner))
            else
              && (SlotsAt(t, key).Has(owner) <==> SlotsAt(s, key).Has(owner))
              && (SlotsAt(s, key).Has(owner) ==> SlotsAt(t, key).Get(owner) == SlotsAt(s, key).Get(owner))
  {
    PutLookup(SlotsAt(s, k), o, if SlotsAt(s, k).Has(o) then Shared(SlotsAt(s, k).Get(o), now) else Slot(k, o, now, now, 1));
  }

  /** A heartbeat: the caller's slot is renewed, and every other one stays. */
  lemma BeatSigns(s: Store, k: string, o: string, now: real, key: string, owner: string)
    ensures var t := Heartbeat(s, k, o, now).store;
            && (SlotsAt(t, key).Has(owner) <==> SlotsAt(s, key).Has(owner))
            && (SlotsAt(s, key).Has(owner) ==>
                  SlotsAt(t, key).Get(owner).acquiredAt == SlotsAt(s, key).Get(owner).acquiredAt
                  && SlotsAt(t, key).Get(owner).heartbeatAt == if k == key && o == owner then now else SlotsAt(s, key).Get(owner).heartbeatAt)
  {
    var slots := SlotsAt(s, k);
    if slots.Has(o) {
      PutLookup(slots, o, slots.Get(o).(heartbeatAt := now));
    }
  }

  /** The other steps renew nobody. */
  lemma OthersSignNothing(limits: map<string, int>, s: Store, e: Step, key: string, owner: string)
    requires Safe(limits, s) && !e.Acquiring? && !e.Beating?
    ensures var t := Apply(limits, s, e);
            SlotsAt(t, key).Has(owner) ==>
              && SlotsAt(s, key).Has(owner) && SlotsAt(t, key).Get(owner).heartbeatAt == SlotsAt(s, key).Get(owner).heartbeatAt
              && SlotsAt(t, key).Get(owner).acquiredAt == SlotsAt(s, key).Get(owner).acquiredAt
  {
    hide Notify, Asleep, Apart, Safe;
    match e
    case Cancelled(_, _, _) =>
    case Releasing(k, o) =>
      var slots := SlotsAt(s, k);
      if slots.Has(o) {
        var less := slots.Get(o).(refCount := slots.Get(o).refCount - 1);
        PutLookup(slots, o, less);
        RemoveLookup(slots, o);
        NotifyKeepsAll(CountReleased(SetSlots(s, k, slots.Remove(o)), k, o), k);
      }
    case Cleaning(k, threshold) => CleaningSignsNothing(limits, s, k, threshold, key, owner);
  }

  lemma CleaningSignsNothing(limits: map<string, int>, s: Store, k: string, threshold: real, key: string, owner: string)
    requires Safe(limits, s)
    ensures var t := CleanUp(s, k, threshold);
            SlotsAt(t, key).Has(owner) ==> SlotsAt(s, key).Has(owner) && SlotsAt(t, key).Get(owner) == SlotsAt(s, key).Get(owner)
  {
    hide Notify, Asleep, Apart, RemoveAll, StaleOwners;
    var slots := SlotsAt(s, k);
    var stale := StaleOwners(slots, slots.keys, threshold);
    RemoveAllLookup(slots, stale, owner);
    NotifyKeepsAll(SetSlots(s, k, RemoveAll(slots, stale)), k);
  }

  // --- whole runs --------------------------------------------------------------------------

  /** In every interleaving a slot carries the instant at which it was taken and the latest sign of life of its owner. */
  lemma {:induction false} HeartbeatIsLastSeen(limits: map<string, int>, steps: seq<Step>, key: string, owner: string)
    requires Holds(limits, steps, key, owner)
    ensures SlotsAt(Run(limits, steps), key).Get(owner).heartbeatAt == LastSeen(limits, steps, key, owner)
    ensures SlotsAt(Run(limits, steps), key).Get(owner).acquiredAt == TakenAt(limits, steps, key, owner)
  {
    hide Apply, Safe, SlotsOk;
    if steps == [] {
      NobodyHolds(key, owner);
    } else {
      var front, e := steps[..|steps| - 1], steps[|steps| - 1];
      var s := Run(limits, front);
      RunIsSafe(limits, front);
      SlotsAreOk(limits, s, key);
      if Holds(limits, front, key, owner) {
        HeartbeatIsLastSeen(limits, front, key, owner);
      }
      ApplyIs(limits, s, e);
      if e.Acquiring? {
        AttemptSigns(s, e.key, e.owner, LimitOf(limits, e.key), e.now, key, owner);
      } else if e.Beating? {
        BeatSigns(s, e.key, e.owner, e.now, key, owner);
      } else {
        OthersSignNothing(limits, s, e, key, owner);
      }
    }
  }

  lemma ApplyIs(limits: map<string, int>, s: Store, e: Step)
    ensures e.Acquiring? ==> Apply(limits, s, e) == TryAcquire(s, e.key, e.owner, LimitOf(limits, e.key), e.now).store
    ensures e.Beating? ==> Apply(limits, s, e) == Heartbeat(s, e.key, e.owner, e.now).store
    ensures e.Cleaning? ==> Apply(limits, s, e) == CleanUp(s, e.key, e.threshold)
  {
    hide TryAcquire, Heartbeat, CleanUp;
  }

  lemma NobodyHolds(key: string, owner: string)
    ensures !SlotsAt(New(), key).Has(owner)
  {
  }

  lemma SlotsAreOk(limits: map<string, int>, s: Store, key: string)
    requires Safe(limits, s)
    ensures SlotsAt(s, key).Ok()
  {
    SlotFacts(limits, s, key, "");
  }

  /** A slot survives a cleanup exactly if its owner's latest sign of life came at or after the threshold. */
  lemma SurvivesCleanup(limits: map<string, int>, steps: seq<Step>, key: string, owner: string, threshold: real)
    requires Holds(limits, steps, key, owner)
    ensures Holds(limits, steps + [Cleaning(key, threshold)], key, owner) <==> LastSeen(limits, steps, key, owner) >= threshold
  {
    hide Apply, Safe, CleanUp, LastSeen;
    var all := steps + [Cleaning(key, threshold)];
    assert all[..|all| - 1] == steps;
    RunIsSafe(limits, steps);
    HeartbeatIsLastSeen(limits, steps, key, owner);
    ApplyIs(limits, Run(limits, steps), Cleaning(key, threshold));
    CleanUpFreesStale(limits, Run(limits, steps), key, threshold, owner);
  }

  // --- who is let in, and who waits ------------------------------------------------------------------

  /** An attempt is granted exactly to an owner that holds a slot already, or while there are fewer slots than the limit; otherwise it waits on a fresh event. */
  lemma AttemptIsGranted(limits: map<string, int>, s: Store, key: string, owner: string, now: real)
    requires Safe(limits, s)
    ensures var a, slots := TryAcquire(s, key, owner, LimitOf(limits, key), now), SlotsAt(s, key);
            && (a.slot.Some? <==> slots.Has(owner) || |slots.items| < LimitOf(limits, key))
            && (a.slot.Some? ==> a.event.None? && SlotsAt(a.store, key).Has(owner) && a.slot.value == SlotsAt(a.store, key).Get(owner)
                                 && a.store.waiting == s.waiting)
            && (a.slot.None? ==> a.event == Some(s.nextEvent) && a.store.nextEvent == s.nextEvent + 1 && a.store.slots == s.slots
                                 && WaitersAt(a.store, key).Has(owner) && WaitersAt(a.store, key).Get(owner) == s.nextEvent)
            && a.store.fired == s.fired
  {
    hide Safe, SlotsOk;
    SlotsAreOk(limits, s, key);
    DictSize(SlotsAt(s, key));
  }

  // --- waiters that are cancelled -----------------------------------------------------------------

  /** A cancelled attempt is no longer listed under its event; every other listing, the owner's own later one included, stays. */
  lemma CancelledIsUnlisted(s: Store, key: string, owner: string, event: nat, k: string, o: string)
    requires WaitersAt(s, key).Ok()
    ensures var t, listed := Abandon(s, key, owner, event), WaitersAt(s, k).Has(o);
            && t.slots == s.slots && t.fired == s.fired && t.nextEvent == s.nextEvent && t.log == s.log
            && (WaitersAt(t, k).Has(o) <==> listed && !(k == key && o == owner && WaitersAt(s, k).Get(o) == event))
            && (WaitersAt(t, k).Has(o) ==> WaitersAt(t, k).Get(o) == WaitersAt(s, k).Get(o))
  {
    RemoveLookup(WaitersAt(s, key), owner);
  }
}
