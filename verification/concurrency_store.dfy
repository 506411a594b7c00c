/**
 `InMemoryConcurrencyStore` in its own form: dictionaries updated in place, one method for every
 critical section. The methods refine `Concurrency`.
 */
module ConcurrencyStore {
  import opened Wrappers
  import opened Dictionaries
  import C = Concurrency
  import opened Concurrency

  class InMemoryConcurrencyStore {
    var slots: map<string, Dict<string, Slot>>
    var waiting: map<string, Dict<string, nat>>
    var fired: set<nat>
    var nextEvent: nat
    ghost var log: Ledger

    ghost function View(): Store
      reads this
    {
      Store(slots, waiting, fired, nextEvent, log)
    }

    constructor ()
      ensures View() == New()
    {
      slots, waiting, fired, nextEvent := map[], map[], {}, 0;
      log := Ledger(map[], map[]);
    }

    function Slots(key: string): Dict<string, Slot>
      reads this`slots
    {
      if key in slots then slots[key] else Empty()
    }

    /** One attempt of `acquire`: share, take a free slot, or wait on a fresh event. */
    method TryAcquire(key: string, owner: string, limit: int, now: real) returns (slot: Option<Slot>, event: Option<nat>)
      modifies this
      ensures Attempt(View(), slot, event) == C.TryAcquire(old(View()), key, owner, limit, now)
    {
      slot, event := None, None;
      var held := Slots(key);
      if held.Has(owner) {
        var s := held.Get(owner);
        s := s.(heartbeatAt := now, refCount := s.refCount + 1);
        slots := slots[key := held.Put(owner, s)];
        log := log.(acquired := log.acquired[(key, owner) := Tally(log.acquired, (key, owner)) + 1]);
        slot := Some(s);
        return;
      }
      if |held.keys| < limit {
        var s := Slot(key, owner, now, now, 1);
        slots := slots[key := held.Put(owner, s)];
        log := log.(acquired := log.acquired[(key, owner) := Tally(log.acquired, (key, owner)) + 1]);
        slot := Some(s);
        return;
      }
      event := Some(nextEvent);
      var waiters := if key in waiting then waiting[key] else Empty();
      waiting := waiting[key := waiters.Put(owner, nextEvent)];
      nextEvent := nextEvent + 1;
    }

    /** A cancelled wait. */
    method Abandon(key: string, owner: string, event: nat)
      modifies this`waiting
      ensures View() == C.Abandon(old(View()), key, owner, event)
    {
      if key in waiting && waiting[key].Has(owner) && waiting[key].Get(owner) == event {
        waiting := waiting[key := waiting[key].Remove(owner)];
      }
    }

    /** `_notify_waiter`. */
    method NotifyWaiter(key: string)
      modifies this`waiting, this`fired
      ensures View() == Notify(old(View()), key)
    {
      if key !in waiting {
        return;
      }
      var waiters := waiting[key];
      for i := 0 to |waiters.keys|
        invariant waiting == old(waiting) && fired == old(fired)
        invariant FirstAsleep(waiters, fired, 0) == FirstAsleep(waiters, fired, i)
      {
        var owner := waiters.keys[i];
        if waiters.Has(owner) && waiters.Get(owner) !in fired {
          fired := fired + {waiters.Get(owner)};
          waiting := waiting[key := waiters.Remove(owner)];
          return;
        }
      }
    }

    /** `release`. */
    method Release(key: string, owner: string) returns (ok: bool)
      modifies this
      ensures Reply(View(), ok) == C.Release(old(View()), key, owner)
    {
      hide Notify;
      var held := Slots(key);
      if !held.Has(owner) {
        return false;
      }
      var slot := held.Get(owner);
      slot := slot.(refCount := slot.refCount - 1);
      log := log.(released := log.released[(key, owner) := Tally(log.released, (key, owner)) + 1]);
      ok := true;
      if slot.refCount > 0 {
        slots := slots[key := held.Put(owner, slot)];
        return;
      }
      slots := slots[key := held.Remove(owner)];
      NotifyWaiter(key);
    }

    /** `heartbeat`. */
    method Heartbeat(key: string, owner: string, now: real) returns (ok: bool)
      modifies this`slots
      ensures Reply(View(), ok) == C.Heartbeat(old(View()), key, owner, now)
    {
      var held := Slots(key);
      ok := held.Has(owner);
      if ok {
        slots := slots[key := held.Put(owner, held.Get(owner).(heartbeatAt := now))];
      }
    }

    /** `cleanup_stale` for one key: the stale owners are collected first, then dropped, then one waiter is woken. */
    method CleanUpStale(key: string, threshold: real) returns (removed: nat)
      modifies this`slots, this`waiting, this`fired
      ensures View() == CleanUp(old(View()), key, threshold)
      ensures removed == |StaleOwners(old(Slots(key)), old(Slots(key)).keys, threshold)|
    {
      hide Notify;
      var held := Slots(key);
      var stale: seq<string> := [];
      for i := 0 to |held.keys|
        invariant stale == StaleOwners(held, held.keys[..i], threshold)
      {
        assert held.keys[..i + 1][..i] == held.keys[..i];
        if Stale(held, held.keys[i], threshold) {
          stale := stale + [held.keys[i]];
        }
      }
      assert held.keys[..|held.keys|] == held.keys;
      removed := 0;
      var left := held;
      for i := 0 to |stale|
        invariant left == RemoveAll(held, stale[..i]) && removed == i
      {
        assert stale[..i + 1][..i] == stale[..i];
        left := left.Remove(stale[i]);
        removed := removed + 1;
      }
      assert stale[..|stale|] == stale;
      if stale != [] {
        slots := slots[key := left];
        NotifyWaiter(key);
      }
    }
  }
}
