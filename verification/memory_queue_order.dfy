/**
 What `dequeue` hands out. `Offer` lists the unexpired jobs a worker may take, tenant by tenant
 in the order the tenants are visited, most urgent level first, oldest first. A call hands out
 the first `max` of them and leaves the rest on offer.
 */
module QueueOrder {
  import opened Wrappers
  import opened MemoryQueue

  predicate Suits(j: Job, types: seq<string>, now: real) {
    !Expired(j, now) && (types == [] || j.kind in types)
  }

  /** The jobs of one lane that may be taken, oldest first. */
  function Eligible(jobs: seq<Job>, types: seq<string>, now: real): seq<Job> {
    if jobs == [] then []
    else
      var n := |jobs| - 1;
      Eligible(jobs[..n], types, now) + (if Suits(jobs[n], types, now) then [jobs[n]] else [])
  }

  function LaneOffer(s: Store, key: string, p: Priority, types: seq<string>, now: real): seq<Job> {
    Eligible(LanesAt(s.queues, key).Get(p), types, now)
  }

  /** A tenant's offer from the `k`-th level down. */
  function TenantOffer(s: Store, key: string, k: nat, types: seq<string>, now: real): seq<Job>
    requires k <= 4
    decreases 4 - k
  {
    if k == 4 then [] else LaneOffer(s, key, LEVELS[k], types, now) + TenantOffer(s, key, k + 1, types, now)
  }

  /** A tenant that is visited twice (as None and as "default") has nothing more to offer the second time. */
  function Offer(s: Store, order: seq<string>, types: seq<string>, now: real): seq<Job> {
    if order == [] then []
    else
      var n := |order| - 1;
      Offer(s, order[..n], types, now) + (if order[n] in order[..n] then [] else TenantOffer(s, order[n], 0, types, now))
  }

  function BegunAll(jobs: seq<Job>, now: real): seq<Job> {
    if jobs == [] then [] else [Begun(jobs[0], now)] + BegunAll(jobs[1..], now)
  }

  // --- one lane -------------------------------------------------------------------

  lemma {:induction false} EligibleOfConcatenation(a: seq<Job>, b: seq<Job>, types: seq<string>, now: real)
    ensures Eligible(a + b, types, now) == Eligible(a, types, now) + Eligible(b, types, now)
  {
    if b == [] {
      assert a + b == a;
    } else {
      var n := |b| - 1;
      assert (a + b)[..|a + b| - 1] == a + b[..n];
      EligibleOfConcatenation(a, b[..n], types, now);
    }
  }

  lemma OneEligible(j: Job, types: seq<string>, now: real)
    ensures Eligible([j], types, now) == if Suits(j, types, now) then [j] else []
  {
    assert [j][..0] == [];
  }

  /** Purging a lane takes nothing off the offer. */
  lemma {:induction false} PurgeOffers(jobs: seq<Job>, types: seq<string>, now: real)
    ensures Eligible(Unexpired(jobs, now), types, now) == Eligible(jobs, types, now)
    ensures forall j :: j in Unexpired(jobs, now) ==> !Expired(j, now)
  {
    if jobs != [] {
      var n := |jobs| - 1;
      PurgeOffers(jobs[..n], types, now);
      EligibleOfConcatenation(Unexpired(jobs[..n], now), [jobs[n]], types, now);
      OneEligible(jobs[n], types, now);
      assert Unexpired(jobs[..n], now) + [] == Unexpired(jobs[..n], now);
    }
  }

  lemma {:induction false} NoneEligible(jobs: seq<Job>, types: seq<string>, now: real)
    requires forall j :: j in jobs ==> !Suits(j, types, now)
    ensures Eligible(jobs, types, now) == []
  {
    if jobs != [] {
      NoneEligible(jobs[..|jobs| - 1], types, now);
    }
  }

  /** In a purged lane the first match is the head of the lane's offer; taking it leaves the tail. */
  lemma FirstMatchIsHead(jobs: seq<Job>, types: seq<string>, now: real)
    requires forall j :: j in jobs ==> !Expired(j, now)
    ensures var i := FirstMatch(jobs, types);
            if i < |jobs| then
              && Eligible(jobs, types, now) == [jobs[i]] + Eligible(Without(jobs, i), types, now)
            else i == |jobs| && Eligible(jobs, types, now) == []
  {
    hide Eligible, FirstMatch;
    FirstMatchFound(jobs, types);
    var i := FirstMatch(jobs, types);
    NoneEligible(jobs[..i], types, now);
    if i < |jobs| {
      assert jobs == jobs[..i] + ([jobs[i]] + jobs[i + 1..]);
      EligibleOfConcatenation(jobs[..i], [jobs[i]] + jobs[i + 1..], types, now);
      EligibleOfConcatenation([jobs[i]], jobs[i + 1..], types, now);
      EligibleOfConcatenation(jobs[..i], jobs[i + 1..], types, now);
      OneEligible(jobs[i], types, now);
    } else {
      assert jobs[..i] == jobs;
    }
  }

  // --- one scan -----------------------------------------------------------------------

  ghost predicate SameOffer(s: Store, t: Store, types: seq<string>, now: real) {
    forall key, p :: LaneOffer(t, key, p, types, now) == LaneOffer(s, key, p, types, now)
  }

  lemma PurgeKeepsOffer(s: Store, key: string, p: Priority, types: seq<string>, now: real)
    ensures var t := Purge(s, key, p, now);
            SameOffer(s, t, types, now) && LanesAt(t.queues, key).Get(p) == Unexpired(LanesAt(s.queues, key).Get(p), now)
  {
    hide Unexpired, Eligible, Dropped, Overdue;
    var t := Purge(s, key, p, now);
    PurgeOffers(LanesAt(s.queues, key).Get(p), types, now);
    forall other, q
      ensures LaneOffer(t, other, q, types, now) == LaneOffer(s, other, q, types, now)
    {
      assert (other == key && q == p) || LanesAt(t.queues, other).Get(q) == LanesAt(s.queues, other).Get(q);
    }
  }

  /** The scan of a tenant settles on the oldest suitable job of the most urgent level that has one. */
  ghost predicate Settles(s: Store, t: Store, choice: Option<Choice>, key: string, k: nat, types: seq<string>, now: real)
    requires k <= 4
  {
    match choice
    case None => forall m :: k <= m < 4 ==> LaneOffer(s, key, LEVELS[m], types, now) == []
    case Some(c) =>
      && c.key == key && Heads(t, c, types, now)
      && (exists m :: k <= m < 4 && LEVELS[m] == c.level
                      && forall l :: k <= l < m ==> LaneOffer(s, key, LEVELS[l], types, now) == [])
  }

  /** The chosen job is the first its lane has to offer, and taking it leaves the others. */
  ghost predicate Heads(t: Store, c: Choice, types: seq<string>, now: real) {
    var lane := LanesAt(t.queues, c.key).Get(c.level);
    c.index < |lane| && Eligible(lane, types, now) == [lane[c.index]] + Eligible(Without(lane, c.index), types, now)
  }

  lemma {:induction false} ScanLanesSettles(s: Store, key: string, k: nat, types: seq<string>, now: real)
    requires k <= 4
    ensures var r := ScanLanes(s, key, k, types, now);
            SameOffer(s, r.store, types, now) && Settles(s, r.store, r.choice, key, k, types, now)
    decreases 4 - k
  {
    hide Purge, Unexpired, Eligible, Without, FirstMatch;
    if k < 4 {
      var t := Purge(s, key, LEVELS[k], now);
      var lane := LanesAt(t.queues, key).Get(LEVELS[k]);
      PurgeKeepsOffer(s, key, LEVELS[k], types, now);
      PurgeOffers(LanesAt(s.queues, key).Get(LEVELS[k]), types, now);
      FirstMatchIsHead(lane, types, now);
      if FirstMatch(lane, types) < |lane| {
        assert LEVELS[k] == LEVELS[k];
      } else {
        assert LaneOffer(t, key, LEVELS[k], types, now) == [];
        ScanLanesSettles(t, key, k + 1, types, now);
        SettlesFromAbove(s, t, ScanLanes(t, key, k + 1, types, now), key, k, types, now);
      }
    }
  }

  lemma SettlesFromAbove(s: Store, t: Store, r: Scan, key: string, k: nat, types: seq<string>, now: real)
    requires k < 4 && SameOffer(s, t, types, now) && LaneOffer(t, key, LEVELS[k], types, now) == []
    requires Settles(t, r.store, r.choice, key, k + 1, types, now)
    ensures Settles(s, r.store, r.choice, key, k, types, now)
  {
    hide LaneOffer, Heads;
    if r.choice.Some? {
      var m :| k + 1 <= m < 4 && LEVELS[m] == r.choice.value.level
         && forall l :: k + 1 <= l < m ==> LaneOffer(t, key, LEVELS[l], types, now) == [];
      assert k <= m < 4 && LEVELS[m] == r.choice.value.level;
    }
  }

  lemma {:induction false} NothingOffered(s: Store, key: string, k: nat, types: seq<string>, now: real)
    requires k <= 4 && forall m :: k <= m < 4 ==> LaneOffer(s, key, LEVELS[m], types, now) == []
    ensures TenantOffer(s, key, k, types, now) == []
    decreases 4 - k
  {
    hide LaneOffer;
    if k < 4 {
      NothingOffered(s, key, k + 1, types, now);
    }
  }

  lemma {:induction false} SameTenantOffer(s: Store, t: Store, key: string, k: nat, types: seq<string>, now: real)
    requires k <= 4 && forall m :: k <= m < 4 ==> LaneOffer(t, key, LEVELS[m], types, now) == LaneOffer(s, key, LEVELS[m], types, now)
    ensures TenantOffer(t, key, k, types, now) == TenantOffer(s, key, k, types, now)
    decreases 4 - k
  {
    hide LaneOffer;
    if k < 4 {
      SameTenantOffer(s, t, key, k + 1, types, now);
    }
  }

  lemma {:induction false} SameWholeOffer(s: Store, t: Store, order: seq<string>, types: seq<string>, now: real)
    requires forall key, p :: key in order ==> LaneOffer(t, key, p, types, now) == LaneOffer(s, key, p, types, now)
    ensures Offer(t, order, types, now) == Offer(s, order, types, now)
  {
    hide LaneOffer, TenantOffer;
    if order != [] {
      var n := |order| - 1;
      SameWholeOffer(s, t, order[..n], types, now);
      SameTenantOffer(s, t, order[n], 0, types, now);
    }
  }

  /** The tenant the scan stops at is the first that offers anything; `at` is its first position. */
  ghost predicate StopsAt(s: Store, t: Store, choice: Option<Choice>, order: seq<string>, types: seq<string>, now: real) {
    match choice
    case None => forall i :: 0 <= i < |order| ==> TenantOffer(s, order[i], 0, types, now) == []
    case Some(c) =>
      exists at :: 0 <= at < |order| && Settles(s, t, choice, order[at], 0, types, now)
        && forall i :: 0 <= i < at ==> TenantOffer(s, order[i], 0, types, now) == []
  }

  lemma WithTenantOffers(s: Store, key: string, types: seq<string>, now: real)
    ensures SameOffer(s, WithTenant(s, key), types, now)
  {
    forall other
      ensures LanesAt(WithTenant(s, key).queues, other) == LanesAt(s.queues, other)
    {
    }
  }

  lemma {:induction false} ScanStops(s: Store, order: seq<string>, types: seq<string>, now: real)
    ensures var r := ScanTenants(s, order, types, now);
            SameOffer(s, r.store, types, now) && StopsAt(s, r.store, r.choice, order, types, now)
    decreases |order|
  {
    hide ScanLanes, WithTenant, LaneOffer, TenantOffer, Settles;
    if order != [] {
      var t := WithTenant(s, order[0]);
      WithTenantOffers(s, order[0], types, now);
      ScanLanesSettles(t, order[0], 0, types, now);
      var scan := ScanLanes(t, order[0], 0, types, now);
      SettlesTransfers(s, t, scan, order[0], types, now);
      if scan.choice.None? {
        var rest := ScanTenants(scan.store, order[1..], types, now);
        ScanStops(scan.store, order[1..], types, now);
        StopsLater(s, scan.store, rest, order, types, now);
      }
    }
  }

  lemma SettlesTransfers(s: Store, t: Store, r: Scan, key: string, types: seq<string>, now: real)
    requires SameOffer(s, t, types, now) && Settles(t, r.store, r.choice, key, 0, types, now)
    ensures Settles(s, r.store, r.choice, key, 0, types, now)
    ensures r.choice.None? ==> TenantOffer(s, key, 0, types, now) == []
  {
    hide LaneOffer, Heads, TenantOffer;
    if r.choice.None? {
      NothingOffered(s, key, 0, types, now);
    }
  }

  lemma StopsLater(s: Store, t: Store, r: Scan, order: seq<string>, types: seq<string>, now: real)
    requires order != [] && SameOffer(s, t, types, now) && StopsAt(t, r.store, r.choice, order[1..], types, now)
    requires TenantOffer(s, order[0], 0, types, now) == []
    ensures StopsAt(s, r.store, r.choice, order, types, now)
  {
    hide LaneOffer, Settles, TenantOffer;
    forall i | 0 <= i < |order|
      ensures TenantOffer(t, order[i], 0, types, now) == TenantOffer(s, order[i], 0, types, now)
    {
      SameTenantOffer(s, t, order[i], 0, types, now);
    }
    if r.choice.None? {
      forall i | 0 <= i < |order|
        ensures TenantOffer(s, order[i], 0, types, now) == []
      {
        assert i > 0 ==> order[i] == order[1..][i - 1];
      }
    } else {
      var at :| 0 <= at < |order[1..]| && Settles(t, r.store, r.choice, order[1..][at], 0, types, now)
        && forall i :: 0 <= i < at ==> TenantOffer(t, order[1..][i], 0, types, now) == [];
      SettlesTransfers(s, t, r, order[at + 1], types, now);
      forall i | 0 <= i < at + 1
        ensures TenantOffer(s, order[i], 0, types, now) == []
      {
        assert i > 0 ==> order[i] == order[1..][i - 1];
      }
    }
  }

  // --- the head of the offer --------------------------------------------------------

  lemma {:induction false} EmptyOffer(s: Store, order: seq<string>, types: seq<string>, now: real)
    requires forall i :: 0 <= i < |order| ==> TenantOffer(s, order[i], 0, types, now) == []
    ensures Offer(s, order, types, now) == []
  {
    hide TenantOffer;
    if order != [] {
      EmptyOffer(s, order[..|order| - 1], types, now);
    }
  }

  /** Taking the head of one lane's offer takes the head of the tenant's. */
  lemma {:induction false} TenantHead(s: Store, t: Store, key: string, k: nat, m: nat, j: Job, types: seq<string>, now: real)
    requires k <= m < 4 && forall l :: k <= l < m ==> LaneOffer(s, key, LEVELS[l], types, now) == []
    requires LaneOffer(s, key, LEVELS[m], types, now) == [j] + LaneOffer(t, key, LEVELS[m], types, now)
    requires forall p :: p != LEVELS[m] ==> LaneOffer(t, key, p, types, now) == LaneOffer(s, key, p, types, now)
    ensures TenantOffer(s, key, k, types, now) == [j] + TenantOffer(t, key, k, types, now)
    decreases 4 - k
  {
    hide LaneOffer;
    if k < m {
      TenantHead(s, t, key, k + 1, m, j, types, now);
      assert LEVELS[k] != LEVELS[m];
      EmptyInFront(LaneOffer(s, key, LEVELS[k], types, now), TenantOffer(s, key, k + 1, types, now));
      EmptyInFront(LaneOffer(t, key, LEVELS[k], types, now), TenantOffer(t, key, k + 1, types, now));
    } else {
      SameTenantOffer(s, t, key, k + 1, types, now);
      HeadInFront(j, LaneOffer(t, key, LEVELS[k], types, now), TenantOffer(t, key, k + 1, types, now));
    }
  }

  lemma EmptyInFront(a: seq<Job>, b: seq<Job>)
    requires a == []
    ensures a + b == b
  {
  }

  lemma HeadInFront(j: Job, a: seq<Job>, b: seq<Job>)
    ensures [j] + a + b == [j] + (a + b)
  {
  }

  /** ... and of the whole offer, when no earlier tenant offers anything. */
  lemma {:induction false} WholeHead(s: Store, t: Store, order: seq<string>, at: nat, j: Job, types: seq<string>, now: real)
    requires at < |order| && forall i :: 0 <= i < at ==> TenantOffer(s, order[i], 0, types, now) == []
    requires TenantOffer(s, order[at], 0, types, now) == [j] + TenantOffer(t, order[at], 0, types, now)
    requires forall key :: key != order[at] ==> TenantOffer(t, key, 0, types, now) == TenantOffer(s, key, 0, types, now)
    ensures Offer(s, order, types, now) == [j] + Offer(t, order, types, now)
  {
    hide TenantOffer;
    var n := |order| - 1;
    if at < n {
      WholeHead(s, t, order[..n], at, j, types, now);
      assert order[n] == order[at] ==> order[..n][at] == order[at];
    } else {
      EmptyOffer(s, order[..n], types, now);
      forall i | 0 <= i < n
        ensures order[i] != order[n] && TenantOffer(t, order[i], 0, types, now) == []
      {
        assert TenantOffer(s, order[i], 0, types, now) == [];
      }
      EmptyOffer(t, order[..n], types, now);
    }
  }

  lemma ClaimTakesHead(s: Store, c: Choice, types: seq<string>, now: real)
    requires Heads(s, c, types, now)
    ensures var t, j := Claim(s, c, now), LanesAt(s.queues, c.key).Get(c.level)[c.index];
            && LaneOffer(s, c.key, c.level, types, now) == [j] + LaneOffer(t, c.key, c.level, types, now)
            && forall key, p :: key != c.key || p != c.level ==> LaneOffer(t, key, p, types, now) == LaneOffer(s, key, p, types, now)
  {
    hide Eligible, Without;
  }

  /** One turn of `dequeue`: nothing is chosen exactly when nothing is on offer; otherwise the head of the offer is. */
  lemma ScanTakesHead(s: Store, order: seq<string>, types: seq<string>, now: real)
    ensures var r := ScanTenants(s, order, types, now);
            && (r.choice.None? <==> Offer(s, order, types, now) == [])
            && (r.choice.None? ==> Offer(r.store, order, types, now) == [])
            && (r.choice.Some? ==>
                  && Chosen(r.store, r.choice.value)
                  && Offer(s, order, types, now)
                     == [LanesAt(r.store.queues, r.choice.value.key).Get(r.choice.value.level)[r.choice.value.index]]
                        + Offer(Claim(r.store, r.choice.value, now), order, types, now))
  {
    hide ScanTenants, LaneOffer, TenantOffer, Offer, Claim, Settles;
    var r := ScanTenants(s, order, types, now);
    ScanStops(s, order, types, now);
    SameWholeOffer(s, r.store, order, types, now);
    if r.choice.None? {
      EmptyOffer(s, order, types, now);
    } else {
      var at :| 0 <= at < |order| && Settles(s, r.store, r.choice, order[at], 0, types, now)
        && forall i :: 0 <= i < at ==> TenantOffer(s, order[i], 0, types, now) == [];
      ChosenIsHead(s, r, order, at, types, now);
    }
  }

  lemma ChosenIsHead(s: Store, r: Scan, order: seq<string>, at: nat, types: seq<string>, now: real)
    requires SameOffer(s, r.store, types, now) && r.choice.Some? && at < |order|
    requires Settles(s, r.store, r.choice, order[at], 0, types, now)
    requires forall i :: 0 <= i < at ==> TenantOffer(s, order[i], 0, types, now) == []
    ensures Chosen(r.store, r.choice.value)
    ensures Offer(s, order, types, now)
      == [LanesAt(r.store.queues, r.choice.value.key).Get(r.choice.value.level)[r.choice.value.index]]
         + Offer(Claim(r.store, r.choice.value, now), order, types, now)
  {
    hide LaneOffer, TenantOffer, Offer, Claim, Eligible, Without;
    var c := r.choice.value;
    var j := LanesAt(r.store.queues, c.key).Get(c.level)[c.index];
    var t := Claim(r.store, c, now);
    ClaimTakesHead(r.store, c, types, now);
    var m :| 0 <= m < 4 && LEVELS[m] == c.level && forall l :: 0 <= l < m ==> LaneOffer(s, c.key, LEVELS[l], types, now) == [];
    TenantHead(s, t, c.key, 0, m, j, types, now);
    forall key | key != c.key
      ensures TenantOffer(t, key, 0, types, now) == TenantOffer(s, key, 0, types, now)
    {
      SameTenantOffer(s, t, key, 0, types, now);
    }
    WholeHead(s, t, order, at, j, types, now);
  }

  /**
   `dequeue` hands out the first `max` jobs on offer, marked as begun, and leaves the others on
   offer; so it comes back with fewer than `max` only when no listed tenant has anything left.
   */
  lemma {:induction false} DequeueTakesTheOffer(s: Store, order: seq<string>, types: seq<string>, max: nat, now: real)
    ensures var offer, r := Offer(s, order, types, now), Dequeue(s, order, types, max, now);
            var n := if max < |offer| then max else |offer|;
            && r.jobs == BegunAll(offer[..n], now)
            && Offer(r.store, order, types, now) == offer[n..]
    decreases max
  {
    hide ScanTenants, Offer, Claim, Begun;
    if max > 0 {
      ScanChooses(s, order, types, now);
      ScanTakesHead(s, order, types, now);
      var scan := ScanTenants(s, order, types, now);
      if scan.choice.Some? {
        var t := Claim(scan.store, scan.choice.value, now);
        var offer, rest := Offer(s, order, types, now), Offer(t, order, types, now);
        DequeueTakesTheOffer(t, order, types, max - 1, now);
        var n := if max < |offer| then max else |offer|;
        assert offer[..n] == [offer[0]] + rest[..n - 1];
        assert offer[n..] == rest[n - 1..];
      }
    }
  }

  lemma {:induction false} ScanLanesElsewhere(s: Store, key: string, k: nat, types: seq<string>, now: real, other: string)
    requires k <= 4 && other != key
    ensures LanesAt(ScanLanes(s, key, k, types, now).store.queues, other) == LanesAt(s.queues, other)
    decreases 4 - k
  {
    hide Unexpired, FirstMatch, Overdue, Dropped;
    if k < 4 {
      ScanLanesElsewhere(Purge(s, key, LEVELS[k], now), key, k + 1, types, now, other);
    }
  }

  lemma {:induction false} ScanElsewhere(s: Store, order: seq<string>, types: seq<string>, now: real, other: string)
    requires other !in order
    ensures var r := ScanTenants(s, order, types, now);
            LanesAt(r.store.queues, other) == LanesAt(s.queues, other) && (r.choice.Some? ==> r.choice.value.key != other)
    decreases |order|
  {
    hide ScanLanes;
    if order != [] {
      var t := WithTenant(s, order[0]);
      ScanLanesElsewhere(t, order[0], 0, types, now, other);
      ScanLanesSettles(t, order[0], 0, types, now);
      ScanElsewhere(ScanLanes(t, order[0], 0, types, now).store, order[1..], types, now, other);
    }
  }

  /** Tenants that are not visited are left alone. */
  lemma {:induction false} DequeueElsewhere(s: Store, order: seq<string>, types: seq<string>, max: nat, now: real, other: string)
    ensures other !in order ==> LanesAt(Dequeue(s, order, types, max, now).store.queues, other) == LanesAt(s.queues, other)
    decreases max
  {
    hide ScanTenants;
    if max > 0 && other !in order {
      ScanChooses(s, order, types, now);
      ScanElsewhere(s, order, types, now, other);
      var scan := ScanTenants(s, order, types, now);
      if scan.choice.Some? {
        DequeueElsewhere(Claim(scan.store, scan.choice.value, now), order, types, max - 1, now, other);
      }
    }
  }

  /** A call that comes back short has left no tenant with a job that a worker of these types could have taken. */
  lemma ShortMeansEmpty(s: Store, order: seq<string>, types: seq<string>, max: nat, now: real, key: string, p: Priority, j: Job)
    requires forall k :: k in s.queues.items ==> k in order
    ensures var r := Dequeue(s, order, types, max, now);
            |r.jobs| < max && j in LanesAt(r.store.queues, key).Get(p) ==> !Suits(j, types, now)
  {
    hide Dequeue, Eligible, Suits;
    var r := Dequeue(s, order, types, max, now);
    DequeueTakesTheOffer(s, order, types, max, now);
    var offer := Offer(s, order, types, now);
    BegunAllLength(offer[..if max < |offer| then max else |offer|], now);
    DequeueElsewhere(s, order, types, max, now, key);
    if |r.jobs| < max && j in LanesAt(r.store.queues, key).Get(p) && Suits(j, types, now) {
      OfferCovers(r.store, order, types, now, key, p);
      EligibleCovers(LanesAt(r.store.queues, key).Get(p), types, now, j);
    }
  }

  lemma BegunAllLength(jobs: seq<Job>, now: real)
    ensures |BegunAll(jobs, now)| == |jobs|
    ensures forall i :: 0 <= i < |jobs| ==> BegunAll(jobs, now)[i] == Begun(jobs[i], now)
  {
  }

  lemma {:induction false} EligibleCovers(jobs: seq<Job>, types: seq<string>, now: real, j: Job)
    requires j in jobs && Suits(j, types, now)
    ensures j in Eligible(jobs, types, now)
  {
    var n := |jobs| - 1;
    if jobs[n] != j {
      assert j in jobs[..n];
      EligibleCovers(jobs[..n], types, now, j);
    }
  }

  lemma {:induction false} TenantOfferCovers(s: Store, key: string, k: nat, m: nat, types: seq<string>, now: real)
    requires k <= m < 4
    ensures TenantOffer(s, key, k, types, now) == [] ==> LaneOffer(s, key, LEVELS[m], types, now) == []
    decreases 4 - k
  {
    if k < m {
      TenantOfferCovers(s, key, k + 1, m, types, now);
    }
  }

  lemma {:induction false} OfferCovers(s: Store, order: seq<string>, types: seq<string>, now: real, key: string, p: Priority)
    requires (key !in order ==> LanesAt(s.queues, key) == NO_LANES) && Offer(s, order, types, now) == []
    ensures LaneOffer(s, key, p, types, now) == []
  {
    hide TenantOffer;
    var n := |order| - 1;
    if key !in order {
    } else if key in order[..n] {
      OfferCovers(s, order[..n], types, now, key, p);
    } else {
      assert order[n] == key;
      var m := match p case Critical => 0 case High => 1 case Normal => 2 case Low => 3;
      TenantOfferCovers(s, key, 0, m, types, now);
    }
  }

  lemma TenantOfferOf(s: Store, key: string, types: seq<string>, now: real)
    ensures TenantOffer(s, key, 0, types, now)
      == Eligible(LanesAt(s.queues, key).critical, types, now) + Eligible(LanesAt(s.queues, key).high, types, now)
         + Eligible(LanesAt(s.queues, key).normal, types, now) + Eligible(LanesAt(s.queues, key).low, types, now)
  {
    hide Eligible;
    assert TenantOffer(s, key, 3, types, now) == LaneOffer(s, key, Low, types, now);
    assert TenantOffer(s, key, 2, types, now) == LaneOffer(s, key, Normal, types, now) + LaneOffer(s, key, Low, types, now);
  }

  /** The tenant that is visited first is served first. */
  lemma {:induction false} FirstTenantFirst(s: Store, order: seq<string>, types: seq<string>, now: real)
    requires order != []
    ensures TenantOffer(s, order[0], 0, types, now) <= Offer(s, order, types, now)
  {
    hide TenantOffer;
    var n := |order| - 1;
    if n > 0 {
      FirstTenantFirst(s, order[..n], types, now);
    } else {
      assert order[..n] == [];
    }
  }
}
