/**
 What one `check_limit` decides and changes, in terms of the windows and not of the loops.
 */
module RateLimitWindows {
  import opened RateLimit

  // --- pruning -----------------------------------------------------------------------

  lemma {:induction false} PruneOfConcatenation(a: seq<real>, b: seq<real>, seconds: int, now: real)
    ensures Prune(a + b, seconds, now) == Prune(a, seconds, now) + Prune(b, seconds, now)
  {
    if b == [] {
      assert a + b == a;
    } else {
      var n := |b| - 1;
      assert (a + b)[..|a + b| - 1] == a + b[..n];
      PruneOfConcatenation(a, b[..n], seconds, now);
    }
  }

  /** An earlier pruning makes no difference to a later one. */
  lemma {:induction false} PruneAgain(stamps: seq<real>, seconds: int, before: real, now: real)
    requires before <= now
    ensures Prune(Prune(stamps, seconds, before), seconds, now) == Prune(stamps, seconds, now)
  {
    if stamps != [] {
      var n := |stamps| - 1;
      var front := Prune(stamps[..n], seconds, before);
      PruneAgain(stamps[..n], seconds, before, now);
      PruneStep(stamps, seconds, before);
      PruneStep(stamps, seconds, now);
      hide Prune;
      PruneOfConcatenation(front, [stamps[n]], seconds, now);
      PruneOne(stamps[n], seconds, now);
      assert front + [] == front;
    }
  }

  lemma PruneStep(stamps: seq<real>, seconds: int, now: real)
    requires stamps != []
    ensures var n := |stamps| - 1;
            Prune(stamps, seconds, now) == Prune(stamps[..n], seconds, now) + if stamps[n] > now - seconds as real then [stamps[n]] else []
  {
  }

  lemma PruneOne(stamp: real, seconds: int, now: real)
    ensures Prune([stamp], seconds, now) == if stamp > now - seconds as real then [stamp] else []
  {
    assert [stamp][..0] == [];
  }

  lemma NothingToPrune(seconds: int, now: real)
    ensures Prune([], seconds, now) == []
  {
  }

  lemma {:induction false} PruneMembers(stamps: seq<real>, seconds: int, now: real)
    ensures forall x :: x in Prune(stamps, seconds, now) <==> x in stamps && x > now - seconds as real
  {
    if stamps != [] {
      var n := |stamps| - 1;
      PruneMembers(stamps[..n], seconds, now);
      assert stamps == stamps[..n] + [stamps[n]];
    }
  }

  lemma {:induction false} PruneNothing(stamps: seq<real>, seconds: int, now: real)
    requires forall i :: 0 <= i < |stamps| ==> stamps[i] > now - seconds as real
    ensures Prune(stamps, seconds, now) == stamps
  {
    hide Prune;
    if stamps != [] {
      var n := |stamps| - 1;
      assert forall i :: 0 <= i < n ==> stamps[..n][i] == stamps[i];
      PruneNothing(stamps[..n], seconds, now);
      PruneStep(stamps, seconds, now);
      assert stamps == stamps[..n] + [stamps[n]];
    } else {
      NothingToPrune(seconds, now);
    }
  }

  // --- the first loop -----------------------------------------------------------------

  predicate Lists(windows: seq<Window>, seconds: int) {
    exists i :: 0 <= i < |windows| && windows[i].seconds == seconds
  }

  ghost predicate DistinctLengths(windows: seq<Window>) {
    forall i, j :: 0 <= i < j < |windows| ==> windows[i].seconds != windows[j].seconds
  }

  /** The request fits in a window once its cost is applied. */
  predicate Fits(d: Data, key: string, w: Window, charge: nat, now: real) {
    Usage(d, key, w.seconds, now) + charge <= w.limit
  }

  lemma ListsOne(windows: seq<Window>, seconds: int)
    requires windows != []
    ensures Lists(windows, seconds) <==> Lists(windows[..|windows| - 1], seconds) || windows[|windows| - 1].seconds == seconds
  {
    var n := |windows| - 1;
    if Lists(windows[..n], seconds) {
      var i :| 0 <= i < n && windows[..n][i].seconds == seconds;
      assert windows[i].seconds == seconds;
    }
    if Lists(windows, seconds) && windows[n].seconds != seconds {
      var i :| 0 <= i < |windows| && windows[i].seconds == seconds;
      assert windows[..n][i].seconds == seconds;
    }
  }

  /** Looking prunes the logs of the policy's windows and touches no other log. */
  lemma {:induction false} LookPrunes(d: Data, key: string, windows: seq<Window>, charge: nat, now: real, k: string, seconds: int)
    ensures Stamps(Look(d, key, windows, charge, now).data, k, seconds)
      == if k == key && Lists(windows, seconds) then Prune(Stamps(d, k, seconds), seconds, now) else Stamps(d, k, seconds)
  {
    hide Prune, Sooner, ComeBack, Lists;
    if windows == [] {
      assert !Lists(windows, seconds) by { NoneListed(seconds); }
    } else {
      var n := |windows| - 1;
      LookPrunes(d, key, windows[..n], charge, now, k, seconds);
      LookPrunes(d, key, windows[..n], charge, now, key, windows[n].seconds);
      ListsOne(windows, seconds);
      PruneAgain(Stamps(d, key, windows[n].seconds), windows[n].seconds, now, now);
    }
  }

  lemma NoneListed(seconds: int)
    ensures !Lists([], seconds)
  {
  }

  /** A window's usage is the same in every state the first loop passes through. */
  lemma LookKeepsUsage(d: Data, key: string, windows: seq<Window>, charge: nat, before: real, now: real, k: string, seconds: int)
    requires before <= now
    ensures Usage(Look(d, key, windows, charge, before).data, k, seconds, now) == Usage(d, k, seconds, now)
  {
    LookPrunes(d, key, windows, charge, before, k, seconds);
    PruneAgain(Stamps(d, k, seconds), seconds, before, now);
  }

  /** The suggestion of a window that is too full. */
  function Suggestion(d: Data, key: string, w: Window, now: real): int {
    var r := ComeBack(Prune(Stamps(d, key, w.seconds), w.seconds, now), w.seconds, now);
    if r > 1 then r else 1
  }

  function Room(d: Data, key: string, w: Window, charge: nat, now: real): int {
    w.limit - Usage(d, key, w.seconds, now) - charge
  }

  ghost predicate Looked(s: Survey, d: Data, key: string, windows: seq<Window>, charge: nat, now: real) {
    && Decided(s, d, key, windows, charge, now)
    && Suggested(s, d, key, windows, charge, now)
    && Tightened(s, d, key, windows, charge, now)
  }

  ghost predicate Decided(s: Survey, d: Data, key: string, windows: seq<Window>, charge: nat, now: real) {
    s.allowed <==> forall i :: 0 <= i < |windows| ==> Fits(d, key, windows[i], charge, now)
  }

  /** The smallest suggestion of the windows that are too full. */
  ghost predicate Suggested(s: Survey, d: Data, key: string, windows: seq<Window>, charge: nat, now: real) {
    && (s.allowed <==> s.retryAfter.None?)
    && (s.retryAfter.Some? ==>
          && (forall i :: 0 <= i < |windows| && !Fits(d, key, windows[i], charge, now) ==> s.retryAfter.value <= Suggestion(d, key, windows[i], now))
          && exists i :: 0 <= i < |windows| && !Fits(d, key, windows[i], charge, now) && s.retryAfter.value == Suggestion(d, key, windows[i], now))
  }

  /** The window with the least room left. */
  ghost predicate Tightened(s: Survey, d: Data, key: string, windows: seq<Window>, charge: nat, now: real) {
    && (windows != [] <==> s.tightest.Some?)
    && (s.tightest.Some? ==>
          && (forall i :: 0 <= i < |windows| ==> s.tightest.value.remaining <= Room(d, key, windows[i], charge, now))
          && exists i :: 0 <= i < |windows| && IsRoomOf(s.tightest.value, d, key, windows[i], charge, now))
  }

  ghost predicate IsRoomOf(t: Tightest, d: Data, key: string, w: Window, charge: nat, now: real) {
    t == Tightest(Room(d, key, w, charge, now), Usage(d, key, w.seconds, now), w.limit)
  }

  /** The first loop looks at all windows as they were before the call. */
  lemma {:induction false} LookDecides(d: Data, key: string, windows: seq<Window>, charge: nat, now: real)
    ensures Looked(Look(d, key, windows, charge, now), d, key, windows, charge, now)
  {
    hide Decided, Suggested, Tightened, Observe, Prune;
    if windows == [] {
      NothingLooked(d, key, charge, now);
    } else {
      var n := |windows| - 1;
      var s := Look(d, key, windows[..n], charge, now);
      LookDecides(d, key, windows[..n], charge, now);
      LookPrunes(d, key, windows[..n], charge, now, key, windows[n].seconds);
      ObserveDecides(s, d, key, windows, charge, now);
      ObserveSuggests(s, d, key, windows, charge, now);
      ObserveTightens(s, d, key, windows, charge, now);
    }
  }

  lemma NothingLooked(d: Data, key: string, charge: nat, now: real)
    ensures Looked(Look(d, key, [], charge, now), d, key, [], charge, now)
  {
  }

  /** The log of the next window is as it was before the call, or already pruned. */
  ghost predicate StillHolds(s: Survey, d: Data, key: string, w: Window, now: real) {
    var before, current := Stamps(d, key, w.seconds), Stamps(s.data, key, w.seconds);
    current == before || current == Prune(before, w.seconds, now)
  }

  lemma PrunedAlike(s: Survey, d: Data, key: string, w: Window, now: real)
    requires StillHolds(s, d, key, w, now)
    ensures Prune(Stamps(s.data, key, w.seconds), w.seconds, now) == Prune(Stamps(d, key, w.seconds), w.seconds, now)
  {
    PruneAgain(Stamps(d, key, w.seconds), w.seconds, now, now);
  }

  lemma ObserveDecides(s: Survey, d: Data, key: string, windows: seq<Window>, charge: nat, now: real)
    requires windows != [] && Decided(s, d, key, windows[..|windows| - 1], charge, now) && StillHolds(s, d, key, windows[|windows| - 1], now)
    ensures Decided(Observe(s, key, windows[|windows| - 1], charge, now), d, key, windows, charge, now)
  {
    hide Prune;
    PrunedAlike(s, d, key, windows[|windows| - 1], now);
  }

  lemma ObserveSuggests(s: Survey, d: Data, key: string, windows: seq<Window>, charge: nat, now: real)
    requires windows != [] && Suggested(s, d, key, windows[..|windows| - 1], charge, now) && StillHolds(s, d, key, windows[|windows| - 1], now)
    requires Decided(s, d, key, windows[..|windows| - 1], charge, now)
    ensures Suggested(Observe(s, key, windows[|windows| - 1], charge, now), d, key, windows, charge, now)
  {
    hide Prune, ComeBack;
    var n := |windows| - 1;
    PrunedAlike(s, d, key, windows[n], now);
    var t := Observe(s, key, windows[n], charge, now);
    if t.retryAfter.Some? && t.retryAfter != s.retryAfter {
      forall i | 0 <= i < n && !Fits(d, key, windows[i], charge, now)
        ensures t.retryAfter.value <= Suggestion(d, key, windows[i], now)
      {
        assert windows[i] == windows[..n][i];
      }
      assert !Fits(d, key, windows[n], charge, now) && t.retryAfter.value == Suggestion(d, key, windows[n], now);
    } else if t.retryAfter.Some? {
      var i :| 0 <= i < n && !Fits(d, key, windows[..n][i], charge, now) && s.retryAfter.value == Suggestion(d, key, windows[..n][i], now);
      assert windows[i] == windows[..n][i];
    }
  }

  lemma ObserveTightens(s: Survey, d: Data, key: string, windows: seq<Window>, charge: nat, now: real)
    requires windows != [] && Tightened(s, d, key, windows[..|windows| - 1], charge, now) && StillHolds(s, d, key, windows[|windows| - 1], now)
    ensures Tightened(Observe(s, key, windows[|windows| - 1], charge, now), d, key, windows, charge, now)
  {
    hide Prune;
    var n := |windows| - 1;
    PrunedAlike(s, d, key, windows[n], now);
    var t := Observe(s, key, windows[n], charge, now);
    if t.tightest != s.tightest {
      assert IsRoomOf(t.tightest.value, d, key, windows[n], charge, now);
    } else {
      var i :| 0 <= i < n && IsRoomOf(s.tightest.value, d, key, windows[..n][i], charge, now);
      assert windows[i] == windows[..n][i];
    }
  }

  // --- the second loop --------------------------------------------------------------------

  /** How many of the windows have a given length, and so share one log. */
  function Sharing(windows: seq<Window>, seconds: int): nat {
    if windows == [] then 0
    else
      var n := |windows| - 1;
      Sharing(windows[..n], seconds) + if windows[n].seconds == seconds then 1 else 0
  }

  lemma {:induction false} SharingCounts(windows: seq<Window>, seconds: int)
    ensures Sharing(windows, seconds) > 0 <==> Lists(windows, seconds)
    ensures DistinctLengths(windows) ==> Sharing(windows, seconds) <= 1
  {
    hide Lists;
    if windows == [] {
      NoneListed(seconds);
    } else {
      var n := |windows| - 1;
      SharingCounts(windows[..n], seconds);
      ListsOne(windows, seconds);
      if DistinctLengths(windows) {
        NotListedTwice(windows);
      }
    }
  }

  lemma NotListedTwice(windows: seq<Window>)
    requires windows != [] && DistinctLengths(windows)
    ensures !Lists(windows[..|windows| - 1], windows[|windows| - 1].seconds)
  {
  }

  /** One more share of the charge. */
  lemma OneMore(m: nat, charge: nat)
    ensures (m + 1) * charge == m * charge + charge
  {
  }

  /** The cost enters a log once for every window that shares it. */
  lemma {:induction false} ConsumeCharges(d: Data, key: string, windows: seq<Window>, charge: nat, now: real, k: string, seconds: int, later: real)
    requires now <= later
    ensures Usage(Consume(d, key, windows, charge, now), k, seconds, later)
         == Usage(d, k, seconds, later) + if k == key && now > later - seconds as real then Sharing(windows, seconds) * charge else 0
  {
    hide Prune;
    if windows != [] {
      var n := |windows| - 1;
      var e, w := Consume(d, key, windows[..n], charge, now), windows[n].seconds;
      ConsumeCharges(d, key, windows[..n], charge, now, k, seconds, later);
      if k == key && w == seconds {
        var stamps := Stamps(e, key, w);
        PruneOfConcatenation(Prune(stamps, w, now), Copies(now, charge), w, later);
        PruneAgain(stamps, w, now, later);
        PruneCopies(now, charge, w, later);
        OneMore(Sharing(windows[..n], seconds), charge);
      }
    }
  }

  // --- the call ---------------------------------------------------------------------------

  /** A request is allowed exactly when its cost fits in every window. */
  lemma AllowedIffFits(d: Data, key: string, policy: Policy, cost: int, now: real)
    requires policy.windows != []
    ensures Check(d, key, policy, cost, now).verdict.allowed
       <==> forall i :: 0 <= i < |policy.windows| ==> Fits(d, key, policy.windows[i], Charge(cost), now)
  {
    hide Look;
    LookDecides(d, key, policy.windows, Charge(cost), now);
  }

  /**
   What a check leaves behind: an allowed one adds its cost to the log of every window of the
   policy, once for every window that shares the log, and to nothing else; a denied one changes
   no window's usage, now or later.
   */
  lemma CheckCharges(d: Data, key: string, policy: Policy, cost: int, now: real, k: string, seconds: int, later: real)
    requires policy.windows != [] && now <= later
    ensures var r := Check(d, key, policy, cost, now);
            var charged := r.verdict.allowed && k == key && now > later - seconds as real;
            Usage(r.data, k, seconds, later) == Usage(d, k, seconds, later) + if charged then Sharing(policy.windows, seconds) * Charge(cost) else 0
  {
    hide Look, Consume, Usage, Sharing;
    var charge, windows := Charge(cost), policy.windows;
    var look := Look(d, key, windows, charge, now);
    LookKeepsUsage(d, key, windows, charge, now, later, k, seconds);
    if look.allowed {
      ConsumeCharges(look.data, key, windows, charge, now, k, seconds, later);
    }
  }

  lemma {:induction false} PruneCopies(now: real, n: nat, seconds: int, later: real)
    ensures |Prune(Copies(now, n), seconds, later)| == if now > later - seconds as real then n else 0
  {
    hide Prune;
    if n == 0 {
      NothingToPrune(seconds, later);
    } else {
      PruneCopies(now, n - 1, seconds, later);
      PruneOfConcatenation(Copies(now, n - 1), [now], seconds, later);
      PruneOne(now, seconds, later);
    }
  }

  lemma OnceOnly(windows: seq<Window>, i: nat)
    requires DistinctLengths(windows) && i < |windows|
    ensures Sharing(windows, windows[i].seconds) == 1
  {
    assert windows[i].seconds == windows[i].seconds;
    SharingCounts(windows, windows[i].seconds);
  }

  /** `remaining` is exact: a further request at the same instant is allowed precisely when its cost does not exceed it. */
  lemma RemainingIsExact(d: Data, key: string, policy: Policy, cost: int, next: int, now: real)
    requires policy.windows != [] && DistinctLengths(policy.windows)
    requires forall i :: 0 <= i < |policy.windows| ==> policy.windows[i].seconds > 0
    requires Check(d, key, policy, cost, now).verdict.allowed
    ensures var r := Check(d, key, policy, cost, now);
            Check(r.data, key, policy, next, now).verdict.allowed <==> Charge(next) <= r.verdict.remaining
  {
    hide Look, Consume, Prune, Charge, DistinctLengths, Sharing;
    var charge, windows := Charge(cost), policy.windows;
    LookDecides(d, key, windows, charge, now);
    LookHasTightest(d, key, windows, charge, now);
    var r := Check(d, key, policy, cost, now);
    AllowedIffFits(r.data, key, policy, next, now);
    AllowedIffFits(d, key, policy, cost, now);
    var tight := Look(d, key, windows, charge, now).tightest.value;
    forall i | 0 <= i < |windows|
      ensures Usage(r.data, key, windows[i].seconds, now) == Usage(d, key, windows[i].seconds, now) + charge
    {
      CheckCharges(d, key, policy, cost, now, key, windows[i].seconds, now);
      OnceOnly(windows, i);
    }
    var m :| 0 <= m < |windows| && IsRoomOf(tight, d, key, windows[m], charge, now);
    assert Fits(d, key, windows[m], charge, now);
    forall i | 0 <= i < |windows|
      ensures Fits(r.data, key, windows[i], Charge(next), now) <==> Charge(next) <= Room(d, key, windows[i], charge, now)
    {
    }
    if Charge(next) > r.verdict.remaining {
      assert !Fits(r.data, key, windows[m], Charge(next), now);
    }
  }

  /** Windows of one length share a log, and a request is charged to it once for each of them. */
  lemma EqualLengthsChargeTwice(d: Data, key: string, policy: Policy, cost: int, now: real, i: nat)
    requires i < |policy.windows| && policy.windows[i].seconds > 0 && Check(d, key, policy, cost, now).verdict.allowed
    ensures var w, r := policy.windows[i], Check(d, key, policy, cost, now);
            && Usage(r.data, key, w.seconds, now) >= Usage(d, key, w.seconds, now) + Charge(cost)
            && (Usage(r.data, key, w.seconds, now) == Usage(d, key, w.seconds, now) + Charge(cost)
                <==> forall j :: 0 <= j < |policy.windows| && policy.windows[j].seconds == w.seconds ==> j == i)
  {
    hide Look, Consume, Usage, Sharing;
    CheckCharges(d, key, policy, cost, now, key, policy.windows[i].seconds, now);
    SharingIsOne(policy.windows, i);
    SharedCharge(Sharing(policy.windows, policy.windows[i].seconds), Charge(cost));
  }

  lemma SharedCharge(m: nat, charge: nat)
    requires m >= 1 && charge >= 1
    ensures m * charge >= charge && (m * charge == charge <==> m == 1)
  {
    OneMore(m - 1, charge);
    if m > 1 {
      assert (m - 1) * charge >= 1 * charge;
    }
  }

  lemma {:induction false} SharingIsOne(windows: seq<Window>, i: nat)
    requires i < |windows|
    ensures Sharing(windows, windows[i].seconds) >= 1
    ensures Sharing(windows, windows[i].seconds) == 1
       <==> forall j :: 0 <= j < |windows| && windows[j].seconds == windows[i].seconds ==> j == i
  {
    hide Lists;
    var n, seconds := |windows| - 1, windows[i].seconds;
    var front := windows[..n];
    if i < n {
      SharingIsOne(front, i);
      assert forall j :: 0 <= j < n ==> front[j] == windows[j];
    } else {
      SharingCounts(front, seconds);
      ListedAt(front, seconds);
      assert forall j :: 0 <= j < n ==> front[j] == windows[j];
    }
  }

  lemma ListedAt(windows: seq<Window>, seconds: int)
    ensures Lists(windows, seconds) <==> exists j :: 0 <= j < |windows| && windows[j].seconds == seconds
  {
  }

  // --- what the verdict reports ---------------------------------------------------------

  lemma {:induction false} LongestReset(d: Data, key: string, windows: seq<Window>, charge: nat, now: real)
    ensures var reset := Look(d, key, windows, charge, now).reset;
            && (forall i :: 0 <= i < |windows| ==> windows[i].seconds <= reset)
            && (reset == 0 || exists i :: 0 <= i < |windows| && windows[i].seconds == reset)
  {
    hide Prune, Oldest, Truncate;
    if windows != [] {
      LongestReset(d, key, windows[..|windows| - 1], charge, now);
    }
  }

  /**
   The count, the limit and what remains are those of one window, the one with the least room; the
   reset is the longest window.
   */
  lemma VerdictReports(d: Data, key: string, policy: Policy, cost: int, now: real)
    requires policy.windows != []
    ensures var v, windows, charge := Check(d, key, policy, cost, now).verdict, policy.windows, if cost > 1 then cost else 1;
            && v.policyName == policy.name
            && (forall i :: 0 <= i < |windows| ==> windows[i].seconds <= v.resetSeconds)
            && (v.resetSeconds == 0 || exists i :: 0 <= i < |windows| && windows[i].seconds == v.resetSeconds)
            && exists i :: 0 <= i < |windows|
                 && v.limit == windows[i].limit
                 && v.currentCount == Usage(d, key, windows[i].seconds, now) + (if v.allowed then charge else 0)
                 && v.remaining == (if v.allowed then windows[i].limit - Usage(d, key, windows[i].seconds, now) - charge else 0)
                 && forall j :: 0 <= j < |windows| ==>
                      windows[i].limit - Usage(d, key, windows[i].seconds, now) <= windows[j].limit - Usage(d, key, windows[j].seconds, now)
  {
    hide Look, Consume, Usage;
    LookDecides(d, key, policy.windows, Charge(cost), now);
    LongestReset(d, key, policy.windows, Charge(cost), now);
  }
}
