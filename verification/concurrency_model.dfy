/**
 The in-memory concurrency store: re-entrant slots and the events its waiters sleep on. Every
 step is a critical section of the source; the steps of different callers interleave freely.
 Events are numbered, `fired` holds those that have been set.
 */
module Concurrency {
  import opened Wrappers
  import opened Dictionaries

  datatype Slot = Slot(key: string, owner: string, acquiredAt: real, heartbeatAt: real, refCount: int)

  type Pair = (string, string)

  /** Successful acquires and releases of every (key, owner), kept by the model only. */
  datatype Ledger = Ledger(acquired: map<Pair, nat>, released: map<Pair, nat>)

  datatype Store = Store(
    slots: map<string, Dict<string, Slot>>, waiting: map<string, Dict<string, nat>>,
    fired: set<nat>, nextEvent: nat, log: Ledger)

  function New(): Store { Store(map[], map[], {}, 0, Ledger(map[], map[])) }

  function SlotsAt(s: Store, key: string): Dict<string, Slot> {
    if key in s.slots then s.slots[key] else Empty()
  }

  function WaitersAt(s: Store, key: string): Dict<string, nat> {
    if key in s.waiting then s.waiting[key] else Empty()
  }

  function Tally(m: map<Pair, nat>, p: Pair): nat { if p in m then m[p] else 0 }

  function SetSlots(s: Store, key: string, slots: Dict<string, Slot>): Store {
    s.(slots := s.slots[key := slots])
  }

  function CountAcquired(s: Store, key: string, owner: string): Store {
    s.(log := s.log.(acquired := s.log.acquired[(key, owner) := Tally(s.log.acquired, (key, owner)) + 1]))
  }

  function CountReleased(s: Store, key: string, owner: string): Store {
    s.(log := s.log.(released := s.log.released[(key, owner) := Tally(s.log.released, (key, owner)) + 1]))
  }

  // --- acquire ---------------------------------------------------------------------

  datatype Attempt = Attempt(store: Store, slot: Option<Slot>, event: Option<nat>)

  function Shared(slot: Slot, now: real): Slot {
    slot.(heartbeatAt := now, refCount := slot.refCount + 1)
  }

  /** A fresh event for every attempt that has to wait. */
  function Wait(s: Store, key: string, owner: string): Store {
    s.(waiting := s.waiting[key := WaitersAt(s, key).Put(owner, s.nextEvent)], nextEvent := s.nextEvent + 1)
  }

  /** One attempt of `acquire`, under the key's lock. */
  function TryAcquire(s: Store, key: string, owner: string, limit: int, now: real): Attempt {
    var slots := SlotsAt(s, key);
    if slots.Has(owner) then
      var slot := Shared(slots.Get(owner), now);
      Attempt(CountAcquired(SetSlots(s, key, slots.Put(owner, slot)), key, owner), Some(slot), None)
    else if |slots.keys| < limit then
      var slot := Slot(key, owner, now, now, 1);
      Attempt(CountAcquired(SetSlots(s, key, slots.Put(owner, slot)), key, owner), Some(slot), None)
    else Attempt(Wait(s, key, owner), None, Some(s.nextEvent))
  }

  /** A waiter that is cancelled takes its own event back, and no other. */
  function Abandon(s: Store, key: string, owner: string, event: nat): Store {
    if key in s.waiting && s.waiting[key].Has(owner) && s.waiting[key].Get(owner) == event then
      s.(waiting := s.waiting[key := s.waiting[key].Remove(owner)])
    else s
  }

  // --- release ----------------------------------------------------------------------

  /** The first waiter, from the `i`-th on, whose event is not set. */
  function FirstAsleep(waiters: Dict<string, nat>, fired: set<nat>, i: nat): nat
    requires i <= |waiters.keys|
    decreases |waiters.keys| - i
  {
    if i == |waiters.keys| then i
    else if waiters.Has(waiters.keys[i]) && waiters.Get(waiters.keys[i]) !in fired then i
    else FirstAsleep(waiters, fired, i + 1)
  }

  /** `_notify_waiter`. */
  function Notify(s: Store, key: string): Store {
    var waiters := WaitersAt(s, key);
    var i := FirstAsleep(waiters, s.fired, 0);
    if i < |waiters.keys| && waiters.Has(waiters.keys[i]) then
      s.(fired := s.fired + {waiters.Get(waiters.keys[i])}, waiting := s.waiting[key := waiters.Remove(waiters.keys[i])])
    else s
  }

  datatype Reply = Reply(store: Store, ok: bool)

  /** `release`. */
  function Release(s: Store, key: string, owner: string): Reply {
    var slots := SlotsAt(s, key);
    if !slots.Has(owner) then Reply(s, false)
    else
      var slot := slots.Get(owner);
      if slot.refCount - 1 > 0 then
        Reply(CountReleased(SetSlots(s, key, slots.Put(owner, slot.(refCount := slot.refCount - 1))), key, owner), true)
      else
        Reply(Notify(CountReleased(SetSlots(s, key, slots.Remove(owner)), key, owner), key), true)
  }

  /** `heartbeat`. */
  function Heartbeat(s: Store, key: string, owner: string, now: real): Reply {
    var slots := SlotsAt(s, key);
    if !slots.Has(owner) then Reply(s, false)
    else Reply(SetSlots(s, key, slots.Put(owner, slots.Get(owner).(heartbeatAt := now))), true)
  }

  // --- cleanup --------------------------------------------------------------------------

  predicate Stale(slots: Dict<string, Slot>, owner: string, threshold: real) {
    slots.Has(owner) && slots.Get(owner).heartbeatAt < threshold
  }

  function StaleOwners(slots: Dict<string, Slot>, keys: seq<string>, threshold: real): seq<string> {
    if keys == [] then []
    else
      var n := |keys| - 1;
      StaleOwners(slots, keys[..n], threshold) + (if Stale(slots, keys[n], threshold) then [keys[n]] else [])
  }

  function RemoveAll(slots: Dict<string, Slot>, owners: seq<string>): Dict<string, Slot> {
    if owners == [] then slots else RemoveAll(slots, owners[..|owners| - 1]).Remove(owners[|owners| - 1])
  }

  /** `cleanup_stale` for one key, under that key's lock: however many slots go, one waiter is woken. */
  function CleanUp(s: Store, key: string, threshold: real): Store {
    var slots := SlotsAt(s, key);
    var stale := StaleOwners(slots, slots.keys, threshold);
    if stale == [] then s else Notify(SetSlots(s, key, RemoveAll(slots, stale)), key)
  }

  // --- interleavings -----------------------------------------------------------------------

  datatype Step =
    | Acquiring(key: string, owner: string, now: real)
    | Cancelled(key: string, owner: string, event: nat)
    | Releasing(key: string, owner: string)
    | Beating(key: string, owner: string, now: real)
    | Cleaning(key: string, threshold: real)

  /** A scope without a limit of its own has limit 1. */
  function LimitOf(limits: map<string, int>, key: string): int { if key in limits then limits[key] else 1 }

  function Apply(limits: map<string, int>, s: Store, step: Step): Store {
    match step
    case Acquiring(key, owner, now) => TryAcquire(s, key, owner, LimitOf(limits, key), now).store
    case Cancelled(key, owner, event) => Abandon(s, key, owner, event)
    case Releasing(key, owner) => Release(s, key, owner).store
    case Beating(key, owner, now) => Heartbeat(s, key, owner, now).store
    case Cleaning(key, threshold) => CleanUp(s, key, threshold)
  }

  function Run(limits: map<string, int>, steps: seq<Step>): Store {
    if steps == [] then New() else Apply(limits, Run(limits, steps[..|steps| - 1]), steps[|steps| - 1])
  }
}
