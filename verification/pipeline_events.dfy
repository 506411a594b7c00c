/**
 The future-event list of the perception-pipeline simulator: entries ordered by
 (time, push counter), and totals over the entries that are still outstanding.
 */
module Events {

  /** A captured frame: `(capture_time, frame_id)`. */
  datatype Frame = Frame(capture: real, id: nat)

  datatype Event =
    | Arrival
    | EpochTimer(generation: nat)
    | ServerDone(items: seq<Frame>, service: real)
    | ServerFailed(items: seq<Frame>)
    | Deliver(id: nat)
    | Consume

  datatype Entry = Entry(time: real, stamp: nat, event: Event)

  /** The heap's order: payloads are never compared, because stamps are unique. */
  predicate Before(a: Entry, b: Entry) {
    a.time < b.time || (a.time == b.time && a.stamp < b.stamp)
  }

  ghost predicate Sorted(q: seq<Entry>) {
    forall i, j :: 0 <= i < j < |q| ==> Before(q[i], q[j])
  }

  /** `heappush`, on the list of entries in the order in which `heappop` returns them. */
  function Insert(q: seq<Entry>, e: Entry): seq<Entry> {
    if q == [] || Before(e, q[0]) then [e] + q else [q[0]] + Insert(q[1..], e)
  }

  lemma {:induction false} InsertMembers(q: seq<Entry>, e: Entry)
    ensures forall x :: x in Insert(q, e) <==> x == e || x in q
  {
    if q != [] && !Before(e, q[0]) {
      InsertMembers(q[1..], e);
    }
  }

  /** The heap property: `heappop` takes the least outstanding entry, because the list stays ordered. */
  lemma {:induction false} InsertSorted(q: seq<Entry>, e: Entry)
    requires Sorted(q) && forall x :: x in q ==> x.stamp < e.stamp
    ensures Sorted(Insert(q, e))
  {
    if q != [] && !Before(e, q[0]) {
      InsertSorted(q[1..], e);
      InsertMembers(q[1..], e);
      var r := Insert(q[1..], e);
      forall j | 0 <= j < |r|
        ensures Before(q[0], r[j])
      {
        assert r[j] in r;
      }
    } else if q != [] {
      forall j | 0 <= j < |q|
        ensures Before(e, q[j])
      {
        assert j > 0 ==> Before(q[0], q[j]);
      }
    }
  }

  /** The event list is ordered, holds no past event, and no stamp is reused. */
  ghost predicate Timely(q: seq<Entry>, clock: real, stamp: nat) {
    && Sorted(q)
    && forall e :: e in q ==> clock <= e.time && e.stamp <= stamp
  }

  lemma InsertTimely(q: seq<Entry>, clock: real, e: Entry, stamp: nat)
    requires Timely(q, clock, stamp) && e.time >= clock && e.stamp == stamp + 1
    ensures Timely(Insert(q, e), clock, stamp + 1)
  {
    InsertSorted(q, e);
    InsertMembers(q, e);
  }

  /** The total of a measure over all outstanding entries. */
  function Total(q: seq<Entry>, f: Entry -> int): int {
    if q == [] then 0 else f(q[0]) + Total(q[1..], f)
  }

  lemma {:induction false} InsertTotal(q: seq<Entry>, e: Entry, f: Entry -> int)
    ensures Total(Insert(q, e), f) == Total(q, f) + f(e)
  {
    if q == [] || Before(e, q[0]) {
      assert Insert(q, e)[1..] == q;
    } else {
      assert Insert(q, e)[1..] == Insert(q[1..], e);
      InsertTotal(q[1..], e, f);
    }
  }

  lemma {:induction false} TotalNonNegative(q: seq<Entry>, f: Entry -> int)
    requires forall e :: f(e) >= 0
    ensures Total(q, f) >= 0
    ensures forall e :: e in q ==> f(e) <= Total(q, f)
  {
    if q != [] {
      TotalNonNegative(q[1..], f);
    }
  }

  /** Busy workers, as the event list sees them. */
  function Servers(e: Entry): int {
    if e.event.ServerDone? || e.event.ServerFailed? then 1 else 0
  }
}
