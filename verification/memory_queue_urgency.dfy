/**
 Urgency across tenants. A turn of `dequeue` takes the most urgent job of the first tenant that has
 one; it is the most urgent job on offer, whatever the order in which the tenants are visited,
 exactly when all tenants with something to offer offer a job of the same, topmost level.
 */
module QueueUrgency {
  import opened Jobs
  import opened MemoryQueue
  import opened QueueOrder
  import QueuePlaces
  import QueueRuns

  /** The position of a level in the order of urgency, the most urgent first. */
  function Rank(j: Job): nat {
    match Level(j.priority) case Critical => 0 case High => 1 case Normal => 2 case Low => 3
  }

  /** Every job is in the lane of its own level, as it is in every run. */
  ghost predicate Filed(s: Store) {
    forall key, p, j :: j in LanesAt(s.queues, key).Get(p) ==> Level(j.priority) == p
  }

  lemma RunsAreFiled(c: Settings, calls: seq<QueueRuns.Call>)
    requires QueueRuns.Legal(c, calls)
    ensures Filed(QueueRuns.Run(c, calls))
  {
    hide QueueRuns.Run, QueuePlaces.Holds;
    var s := QueueRuns.Run(c, calls);
    QueueRuns.RunIsGood(c, calls);
    forall key, p, j | j in LanesAt(s.queues, key).Get(p)
      ensures Level(j.priority) == p
    {
      assert QueuePlaces.LaneOk(LanesAt(s.queues, key).Get(p), s.log.place, key, p);
    }
  }

  // --- what a tenant offers ---------------------------------------------------------

  lemma {:induction false} EligibleAreThere(jobs: seq<Job>, types: seq<string>, now: real)
    ensures forall j :: j in Eligible(jobs, types, now) ==> j in jobs
  {
    if jobs != [] {
      EligibleAreThere(jobs[..|jobs| - 1], types, now);
    }
  }

  lemma LaneRank(s: Store, key: string, k: nat, types: seq<string>, now: real)
    requires Filed(s) && k < 4
    ensures forall j :: j in LaneOffer(s, key, LEVELS[k], types, now) ==> Rank(j) == k
  {
    hide Eligible;
    EligibleAreThere(LanesAt(s.queues, key).Get(LEVELS[k]), types, now);
  }

  /** A tenant offers its most urgent jobs first. */
  lemma {:induction false} TenantSorted(s: Store, key: string, k: nat, types: seq<string>, now: real)
    requires Filed(s) && k <= 4
    ensures var offer := TenantOffer(s, key, k, types, now);
            (forall j :: j in offer ==> k <= Rank(j)) && (offer != [] ==> forall j :: j in offer ==> Rank(offer[0]) <= Rank(j))
    decreases 4 - k
  {
    hide LaneOffer, Filed, Rank;
    if k < 4 {
      LaneRank(s, key, k, types, now);
      TenantSorted(s, key, k + 1, types, now);
      var lane, rest := LaneOffer(s, key, LEVELS[k], types, now), TenantOffer(s, key, k + 1, types, now);
      assert TenantOffer(s, key, k, types, now) == lane + rest;
      if lane == [] {
        EmptyInFront(lane, rest);
      } else {
        assert (lane + rest)[0] == lane[0] && lane[0] in lane;
      }
    }
  }

  // --- what all of them offer --------------------------------------------------------

  lemma {:induction false} OfferHas(s: Store, order: seq<string>, types: seq<string>, now: real, j: Job)
    ensures j in Offer(s, order, types, now) <==> exists key :: key in order && j in TenantOffer(s, key, 0, types, now)
  {
    hide TenantOffer;
    if order != [] {
      var n := |order| - 1;
      OfferHas(s, order[..n], types, now, j);
      assert order == order[..n] + [order[n]];
      assert order[n] in order;
      forall key | key in order
        ensures key in order[..n] || key == order[n]
      {
        var i :| 0 <= i < |order| && order[i] == key;
        assert i < n ==> order[..n][i] == key;
      }
      assert forall key :: key in order[..n] ==> key in order;
    }
  }

  /** The head of the whole offer is the head of some tenant's. */
  lemma {:induction false} HeadIsATenants(s: Store, order: seq<string>, types: seq<string>, now: real)
    requires Offer(s, order, types, now) != []
    ensures exists key :: key in order && TenantOffer(s, key, 0, types, now) != []
                       && Offer(s, order, types, now)[0] == TenantOffer(s, key, 0, types, now)[0]
  {
    hide TenantOffer;
    var n := |order| - 1;
    if Offer(s, order[..n], types, now) != [] {
      HeadIsATenants(s, order[..n], types, now);
      var key :| key in order[..n] && TenantOffer(s, key, 0, types, now) != []
              && Offer(s, order[..n], types, now)[0] == TenantOffer(s, key, 0, types, now)[0];
      assert key in order;
    } else {
      EmptyInFront(Offer(s, order[..n], types, now), TenantOffer(s, order[n], 0, types, now));
      assert order[n] in order;
    }
  }

  // --- the order across tenants ------------------------------------------------------

  ghost predicate Visits(order: seq<string>, tenants: set<string>) {
    forall key :: key in order <==> key in tenants
  }

  /** The job handed out, if any, is at least as urgent as every job on offer. */
  ghost predicate HandsOutTop(s: Store, order: seq<string>, types: seq<string>, now: real) {
    forall i, j :: 0 <= i < |Dequeue(s, order, types, 1, now).jobs| && j in Offer(s, order, types, now) ==>
      Rank(Dequeue(s, order, types, 1, now).jobs[i]) <= Rank(j)
  }

  /** Every tenant with something to offer offers first a job of the same level. */
  ghost predicate Agree(s: Store, tenants: set<string>, types: seq<string>, now: real) {
    forall a, b :: a in tenants && b in tenants && TenantOffer(s, a, 0, types, now) != [] && TenantOffer(s, b, 0, types, now) != [] ==>
      Rank(TenantOffer(s, a, 0, types, now)[0]) == Rank(TenantOffer(s, b, 0, types, now)[0])
  }

  lemma OneTurn(s: Store, order: seq<string>, types: seq<string>, now: real)
    ensures var offer, jobs := Offer(s, order, types, now), Dequeue(s, order, types, 1, now).jobs;
            && (offer == [] ==> jobs == [])
            && (offer != [] ==> |jobs| == 1 && jobs[0] == Begun(offer[0], now) && Rank(jobs[0]) == Rank(offer[0]))
  {
    hide Dequeue, Offer;
    DequeueTakesTheOffer(s, order, types, 1, now);
    var offer := Offer(s, order, types, now);
    if offer != [] {
      assert offer[..1] == [offer[0]];
      BegunAllLength([offer[0]], now);
    } else {
      assert BegunAll([], now) == [];
    }
  }

  lemma {:induction false} Visiting(tenants: set<string>) returns (order: seq<string>)
    ensures Visits(order, tenants)
  {
    order := [];
    if tenants != {} {
      var x :| x in tenants;
      var rest := Visiting(tenants - {x});
      order := [x] + rest;
    }
  }

  lemma AgreementSuffices(s: Store, order: seq<string>, tenants: set<string>, types: seq<string>, now: real)
    requires Filed(s) && Visits(order, tenants) && Agree(s, tenants, types, now)
    ensures HandsOutTop(s, order, types, now)
  {
    hide Dequeue, Offer, TenantOffer, Rank, Filed;
    OneTurn(s, order, types, now);
    var offer := Offer(s, order, types, now);
    if offer != [] {
      HeadIsATenants(s, order, types, now);
      var a :| a in order && TenantOffer(s, a, 0, types, now) != [] && offer[0] == TenantOffer(s, a, 0, types, now)[0];
      forall j | j in offer
        ensures Rank(offer[0]) <= Rank(j)
      {
        OfferHas(s, order, types, now, j);
        var b :| b in order && j in TenantOffer(s, b, 0, types, now);
        TenantSorted(s, b, 0, types, now);
      }
    }
  }

  /** Whoever is visited first sets the level. */
  lemma AgreementIsNeeded(s: Store, tenants: set<string>, types: seq<string>, now: real, a: string, b: string)
    requires a in tenants && b in tenants
    requires TenantOffer(s, a, 0, types, now) != [] && TenantOffer(s, b, 0, types, now) != []
    requires forall order :: Visits(order, tenants) ==> HandsOutTop(s, order, types, now)
    ensures Rank(TenantOffer(s, a, 0, types, now)[0]) <= Rank(TenantOffer(s, b, 0, types, now)[0])
  {
    hide Dequeue, Offer, TenantOffer, Rank;
    var rest := Visiting(tenants - {a});
    var order := [a] + rest;
    assert Visits(order, tenants);
    assert HandsOutTop(s, order, types, now);
    FirstTenantFirst(s, order, types, now);
    OneTurn(s, order, types, now);
    var head := TenantOffer(s, b, 0, types, now)[0];
    OfferHas(s, order, types, now, head);
    assert head in TenantOffer(s, b, 0, types, now);
    assert Offer(s, order, types, now)[0] == TenantOffer(s, a, 0, types, now)[0];
  }

  /**
   The job handed out is the most urgent on offer in every order in which the tenants may be
   visited, exactly when the tenants with something to offer agree on the topmost level.
   */
  lemma UrgencyAcrossTenants(s: Store, tenants: set<string>, types: seq<string>, now: real)
    requires Filed(s)
    ensures (forall order :: Visits(order, tenants) ==> HandsOutTop(s, order, types, now)) <==> Agree(s, tenants, types, now)
  {
    hide Filed, HandsOutTop, TenantOffer, Rank;
    if Agree(s, tenants, types, now) {
      forall order | Visits(order, tenants)
        ensures HandsOutTop(s, order, types, now)
      {
        AgreementSuffices(s, order, tenants, types, now);
      }
    }
    if forall order :: Visits(order, tenants) ==> HandsOutTop(s, order, types, now) {
      forall a, b | a in tenants && b in tenants && TenantOffer(s, a, 0, types, now) != [] && TenantOffer(s, b, 0, types, now) != []
        ensures Rank(TenantOffer(s, a, 0, types, now)[0]) == Rank(TenantOffer(s, b, 0, types, now)[0])
      {
        AgreementIsNeeded(s, tenants, types, now, a, b);
        AgreementIsNeeded(s, tenants, types, now, b, a);
      }
    }
  }

  // --- a run in which they disagree ---------------------------------------------------

  /** The first job of a tenant, accepted. */
  lemma FirstJob(c: Settings, s: Store, j: Job, now: real)
    requires c.maxSize >= 1 && j.tenant != "" && LanesAt(s.queues, j.tenant) == NO_LANES
    requires j.expiresAt.Some? && !Expired(j, now) && Value(Level(j.priority)) == j.priority
    ensures var t := QueueRuns.Apply(c, s, QueueRuns.Submit(j, now));
            && LanesAt(t.queues, j.tenant) == NO_LANES.Put(Level(j.priority), [j])
            && (forall key :: key != j.tenant ==> LanesAt(t.queues, key) == LanesAt(s.queues, key))
            && t.log.place == s.log.place[j.id := InLane(j.tenant, Level(j.priority))]
  {
    hide TotalQueued;
    assert Stamped(c, j, now) == j && Normalised(j) == j && KeyOf(j.tenant) == j.tenant;
    assert Size(NO_LANES) == 0;
    var u := WithTenant(s, j.tenant);
    assert LanesAt(u.queues, j.tenant) == NO_LANES && [] + [j] == [j];
    assert Enqueue(c, s, j, now) == Admission(Accept(u, j), j, true);
  }

  /** A LOW job and a CRITICAL job of two tenants, as clients submit them. */
  ghost predicate LowAndCritical(low: Job, critical: Job, now: real) {
    && low.tenant == "a" && low.priority == 0 && critical.tenant == "b" && critical.priority == 200 && low.id != critical.id
    && low.status == critical.status == Queued && low.retryCount == critical.retryCount == 0 && low.attempts == critical.attempts == []
    && low.expiresAt.Some? && critical.expiresAt.Some? && !Expired(low, now) && !Expired(critical, now)
  }

  function TwoCalls(low: Job, critical: Job, now: real): seq<QueueRuns.Call> {
    [QueueRuns.Submit(low, now), QueueRuns.Submit(critical, now)]
  }

  lemma TwoSubmitted(c: Settings, low: Job, critical: Job, now: real)
    requires c.maxSize >= 1 && LowAndCritical(low, critical, now)
    ensures QueueRuns.Legal(c, TwoCalls(low, critical, now))
    ensures var s := QueueRuns.Run(c, TwoCalls(low, critical, now));
            LanesAt(s.queues, "a") == NO_LANES.(low := [low]) && LanesAt(s.queues, "b") == NO_LANES.(critical := [critical])
  {
    hide QueueRuns.Apply, Enqueue;
    var calls := TwoCalls(low, critical, now);
    assert calls[..1][..0] == [] && calls[..2] == calls && calls[..1] == [QueueRuns.Submit(low, now)];
    var s1 := QueueRuns.Apply(c, New(), calls[0]);
    assert QueueRuns.Run(c, []) == New();
    assert QueueRuns.Run(c, calls[..1]) == s1;
    FirstJob(c, New(), low, now);
    FirstJob(c, s1, critical, now);
    assert QueueRuns.Legal(c, []) && QueueRuns.Legal(c, calls[..1]);
  }

  /**
   Despite its comment the scan does not look for the most urgent job across tenants: after a LOW
   job of one tenant and a CRITICAL job of another have been submitted, the LOW one is handed out
   when its tenant is visited first.
   */
  lemma UrgencyIsPerTenant(c: Settings, low: Job, critical: Job, now: real)
    requires c.maxSize >= 1 && LowAndCritical(low, critical, now)
    ensures var s := QueueRuns.Run(c, TwoCalls(low, critical, now));
            && QueueRuns.Legal(c, TwoCalls(low, critical, now)) && critical in Offer(s, ["a", "b", "default"], [], now)
            && Dequeue(s, ["a", "b", "default"], [], 1, now).jobs == [Begun(low, now)]
  {
    hide *;
    var s := QueueRuns.Run(c, TwoCalls(low, critical, now));
    var order := ["a", "b", "default"];
    TwoSubmitted(c, low, critical, now);
    OffersOf(s, low, critical, now);
    DequeueTakesTheOffer(s, order, [], 1, now);
    FirstTenantFirst(s, order, [], now);
    OfferHas(s, order, [], now, critical);
    assert order[1] in order && critical in TenantOffer(s, "b", 0, [], now);
    var offer := Offer(s, order, [], now);
    assert offer[..1] == [low];
    BegunAllLength([low], now);
  }

  lemma OffersOf(s: Store, low: Job, critical: Job, now: real)
    requires LanesAt(s.queues, "a") == NO_LANES.(low := [low]) && LanesAt(s.queues, "b") == NO_LANES.(critical := [critical])
    requires LowAndCritical(low, critical, now)
    ensures TenantOffer(s, "a", 0, [], now) == [low] && TenantOffer(s, "b", 0, [], now) == [critical]
  {
    hide TenantOffer;
    TenantOfferOf(s, "a", [], now);
    TenantOfferOf(s, "b", [], now);
    OneEligible(low, [], now);
    OneEligible(critical, [], now);
  }
}
