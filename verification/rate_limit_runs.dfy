/**
 Whole runs of the rate limiter, with one policy per key and a clock that never goes back. The
 reference is a limiter that keeps every admitted request for ever, and counts it in a window once
 for every window of the same length; pruning makes no difference to any decision, and no
 half-open interval of a window's length admits more than its limit.
 */
module RateLimitRuns {
  import opened Wrappers
  import opened RateLimit
  import opened RateLimitWindows

  datatype Request = Request(key: string, cost: int, now: real)

  type Policies = map<string, Policy>

  ghost predicate Proper(policies: Policies, requests: seq<Request>) {
    && (forall i :: 0 <= i < |requests| ==> requests[i].key in policies)
    && (forall i, j :: 0 <= i < j < |requests| ==> requests[i].now <= requests[j].now)
    && (forall key :: key in policies ==> policies[key].windows != [])
  }

  function Run(policies: Policies, requests: seq<Request>): Data
    requires Proper(policies, requests)
  {
    if requests == [] then map[]
    else
      var n := |requests| - 1;
      assert Proper(policies, requests[..n]);
      Check(Run(policies, requests[..n]), requests[n].key, policies[requests[n].key], requests[n].cost, requests[n].now).data
  }

  function VerdictAt(policies: Policies, requests: seq<Request>, i: nat): Verdict
    requires Proper(policies, requests) && i < |requests|
  {
    assert Proper(policies, requests[..i]);
    Check(Run(policies, requests[..i]), requests[i].key, policies[requests[i].key], requests[i].cost, requests[i].now).verdict
  }

  // --- the unpruned reference ------------------------------------------------------

  predicate FitsHistory(history: seq<real>, windows: seq<Window>, w: Window, charge: nat, now: real) {
    Sharing(windows, w.seconds) * |Prune(history, w.seconds, now)| + charge <= w.limit
  }

  predicate Admits(policy: Policy, history: seq<real>, cost: int, now: real) {
    forall i :: 0 <= i < |policy.windows| ==> FitsHistory(history, policy.windows, policy.windows[i], Charge(cost), now)
  }

  /** Every unit of cost a limiter without pruning would have admitted for a key, by instant. */
  function History(policies: Policies, requests: seq<Request>, key: string): seq<real>
    requires Proper(policies, requests)
  {
    if requests == [] then []
    else
      var n := |requests| - 1;
      var e := requests[n];
      assert Proper(policies, requests[..n]);
      var before := History(policies, requests[..n], key);
      if e.key == key && Admits(policies[key], before, e.cost, e.now) then before + Copies(e.now, Charge(e.cost)) else before
  }

  /** The pruned log and the unpruned history agree at every later instant, for every length of window. */
  lemma {:induction false} LogIsHistory(policies: Policies, requests: seq<Request>, key: string, seconds: int, later: real)
    requires Proper(policies, requests) && key in policies
    requires forall i :: 0 <= i < |requests| ==> requests[i].now <= later
    ensures Usage(Run(policies, requests), key, seconds, later)
         == Sharing(policies[key].windows, seconds) * |Prune(History(policies, requests, key), seconds, later)|
    decreases |requests|, 1
  {
    hide Prune, Check, Charge, Admits, Sharing;
    if requests == [] {
      NothingToPrune(seconds, later);
    } else {
      var n := |requests| - 1;
      var e := requests[n];
      assert Proper(policies, requests[..n]);
      var d, h := Run(policies, requests[..n]), History(policies, requests[..n], key);
      LogIsHistory(policies, requests[..n], key, seconds, later);
      SameDecision(policies, requests);
      CheckCharges(d, e.key, policies[e.key], e.cost, e.now, key, seconds, later);
      PruneOfConcatenation(h, Copies(e.now, Charge(e.cost)), seconds, later);
      PruneCopies(e.now, Charge(e.cost), seconds, later);
      Distributes(Sharing(policies[key].windows, seconds), |Prune(h, seconds, later)|, Charge(e.cost));
    }
  }

  lemma Distributes(m: nat, a: nat, b: nat)
    ensures m * (a + b) == m * a + m * b
  {
  }

  /** The last request of a run is decided as the reference decides it. */
  lemma {:induction false} SameDecision(policies: Policies, requests: seq<Request>)
    requires Proper(policies, requests) && requests != []
    ensures var n := |requests| - 1;
            && Proper(policies, requests[..n])
            && var e := requests[n];
               Check(Run(policies, requests[..n]), e.key, policies[e.key], e.cost, e.now).verdict.allowed
               == Admits(policies[e.key], History(policies, requests[..n], e.key), e.cost, e.now)
    decreases |requests|, 0
  {
    hide Prune, Check, Run, History, Sharing;
    var n := |requests| - 1;
    var e := requests[n];
    assert Proper(policies, requests[..n]);
    var d := Run(policies, requests[..n]);
    AllowedIffFits(d, e.key, policies[e.key], e.cost, e.now);
    var windows := policies[e.key].windows;
    forall i | 0 <= i < |windows|
      ensures Usage(d, e.key, windows[i].seconds, e.now)
           == Sharing(windows, windows[i].seconds) * |Prune(History(policies, requests[..n], e.key), windows[i].seconds, e.now)|
    {
      LogIsHistory(policies, requests[..n], e.key, windows[i].seconds, e.now);
    }
  }

  /** Pruning never changes a verdict. */
  lemma PruningIsInvisible(policies: Policies, requests: seq<Request>, i: nat)
    requires Proper(policies, requests) && i < |requests|
    ensures Proper(policies, requests[..i])
    ensures VerdictAt(policies, requests, i).allowed
         == Admits(policies[requests[i].key], History(policies, requests[..i], requests[i].key), requests[i].cost, requests[i].now)
  {
    hide Check, Run, History, Admits;
    assert Proper(policies, requests[..i + 1]);
    assert requests[..i + 1][..i] == requests[..i];
    SameDecision(policies, requests[..i + 1]);
  }

  // --- the sliding-window theorem ------------------------------------------------------

  /** The half-open interval of a length from `lo` on, closed on the left or on the right. */
  predicate Inside(x: real, lo: real, length: int, leftClosed: bool) {
    if leftClosed then lo <= x < lo + length as real else lo < x <= lo + length as real
  }

  /** The cost admitted for a key within an interval, by the verdicts of the run. */
  function Admitted(policies: Policies, requests: seq<Request>, key: string, lo: real, length: int, leftClosed: bool): nat
    requires Proper(policies, requests)
  {
    if requests == [] then 0
    else
      var n := |requests| - 1;
      assert Proper(policies, requests[..n]);
      Admitted(policies, requests[..n], key, lo, length, leftClosed)
      + if requests[n].key == key && VerdictAt(policies, requests, n).allowed && Inside(requests[n].now, lo, length, leftClosed)
        then Charge(requests[n].cost) else 0
  }

  /** What was admitted in the interval is still in the window, when the window looks back from within the interval. */
  lemma {:induction false} AdmittedIsRecent(policies: Policies, requests: seq<Request>, key: string, lo: real, length: int, leftClosed: bool, now: real)
    requires Proper(policies, requests) && key in policies && Inside(now, lo, length, leftClosed)
    ensures Admitted(policies, requests, key, lo, length, leftClosed) <= |Prune(History(policies, requests, key), length, now)|
  {
    hide Prune, Check, Charge, Admits, Run;
    if requests != [] {
      var n := |requests| - 1;
      var e := requests[n];
      assert Proper(policies, requests[..n]);
      AdmittedIsRecent(policies, requests[..n], key, lo, length, leftClosed, now);
      SameDecision(policies, requests);
      PruneOfConcatenation(History(policies, requests[..n], key), Copies(e.now, Charge(e.cost)), length, now);
      PruneCopies(e.now, Charge(e.cost), length, now);
    }
  }

  /**
   In any half-open interval as long as one of the policy's windows, the total cost admitted for
   the key is at most that window's limit; for every window of the policy at once.
   */
  lemma {:induction false} NoWindowIsExceeded(policies: Policies, requests: seq<Request>, key: string, w: Window, lo: real, leftClosed: bool)
    requires Proper(policies, requests) && key in policies && w in policies[key].windows
    ensures Admitted(policies, requests, key, lo, w.seconds, leftClosed) <= if w.limit > 0 then w.limit else 0
  {
    hide Prune, Check, Charge, Run, Inside, Sharing;
    if requests != [] {
      var n := |requests| - 1;
      var e := requests[n];
      assert Proper(policies, requests[..n]);
      NoWindowIsExceeded(policies, requests[..n], key, w, lo, leftClosed);
      if e.key == key && VerdictAt(policies, requests, n).allowed && Inside(e.now, lo, w.seconds, leftClosed) {
        SameDecision(policies, requests);
        var i :| 0 <= i < |policies[key].windows| && policies[key].windows[i] == w;
        assert FitsHistory(History(policies, requests[..n], key), policies[key].windows, policies[key].windows[i], Charge(e.cost), e.now);
        AdmittedIsRecent(policies, requests[..n], key, lo, w.seconds, leftClosed, e.now);
        SharingIsOne(policies[key].windows, i);
        Scaled(Sharing(policies[key].windows, w.seconds), |Prune(History(policies, requests[..n], key), w.seconds, e.now)|);
      }
    }
  }

  lemma Scaled(m: nat, a: nat)
    requires m >= 1
    ensures m * a >= a
  {
    Distributes(a, m - 1, 1);
  }

  /** A closed interval is one instant too long: a limit of one lets a request through at each end. */
  lemma BothEndsAreAdmitted()
    ensures var policies := map["k" := Policy("p", [Window(1, 10)])];
            var requests := [Request("k", 1, 0.0), Request("k", 1, 10.0)];
            && Proper(policies, requests)
            && VerdictAt(policies, requests, 0).allowed && VerdictAt(policies, requests, 1).allowed
  {
    hide Check, Run, History, VerdictAt;
    var policies := map["k" := Policy("p", [Window(1, 10)])];
    assert [Window(1, 10)][..0] == [];
    var requests := [Request("k", 1, 0.0), Request("k", 1, 10.0)];
    assert Proper(policies, requests);
    PruningIsInvisible(policies, requests, 0);
    PruningIsInvisible(policies, requests, 1);
    var h := History(policies, requests[..1], "k");
    FirstHistory(policies, requests);
    assert Prune([], 10, 0.0) == [] && Prune([0.0], 10, 10.0) == [] by { PruneOne(0.0, 10, 10.0); }
  }

  lemma FirstHistory(policies: Policies, requests: seq<Request>)
    requires Proper(policies, requests) && |requests| > 0
    ensures requests[..0] == [] && History(policies, [], requests[0].key) == []
    ensures Proper(policies, requests[..1])
    ensures History(policies, requests[..1], requests[0].key)
      == if Admits(policies[requests[0].key], [], requests[0].cost, requests[0].now) then Copies(requests[0].now, Charge(requests[0].cost)) else []
  {
    assert requests[..1][..0] == [];
    assert requests[..1][0] == requests[0];
  }

  // --- retry-after -------------------------------------------------------------------------

  /** No request lowers a window's usage at a given later instant. */
  lemma {:induction false} UsageGrows(policies: Policies, requests: seq<Request>, i: nat, key: string, seconds: int, later: real)
    requires Proper(policies, requests) && i <= |requests|
    requires forall j :: 0 <= j < |requests| ==> requests[j].now <= later
    ensures Proper(policies, requests[..i])
    ensures Usage(Run(policies, requests[..i]), key, seconds, later) <= Usage(Run(policies, requests), key, seconds, later)
    decreases |requests|
  {
    hide Prune, Check, Charge, Usage, Sharing;
    if i == |requests| {
      assert requests[..i] == requests;
    } else {
      var n := |requests| - 1;
      var e := requests[n];
      assert Proper(policies, requests[..n]);
      assert requests[..n][..i] == requests[..i];
      UsageGrows(policies, requests[..n], i, key, seconds, later);
      CheckCharges(Run(policies, requests[..n]), e.key, policies[e.key], e.cost, e.now, key, seconds, later);
    }
  }

  lemma {:induction false} OldestIsLeast(stamps: seq<real>)
    requires stamps != []
    ensures Oldest(stamps) in stamps && forall i :: 0 <= i < |stamps| ==> Oldest(stamps) <= stamps[i]
  {
    var n := |stamps| - 1;
    if n > 0 {
      OldestIsLeast(stamps[..n]);
      assert forall i :: 0 <= i < n ==> stamps[i] == stamps[..n][i];
    }
  }

  lemma TruncateBelow(x: real)
    ensures x >= 0.0 ==> Truncate(x) as real <= x
    ensures x < 0.0 ==> Truncate(x) <= 0
  {
  }

  /** Until a second before the suggestion the full window stays as full as it was. */
  lemma StaysFull(d: Data, key: string, w: Window, now: real, later: real)
    requires now <= later && later - now < Suggestion(d, key, w, now) as real - 1.0
    ensures Usage(d, key, w.seconds, now) <= Usage(d, key, w.seconds, later)
  {
    hide Prune;
    var pruned := Prune(Stamps(d, key, w.seconds), w.seconds, now);
    PruneAgain(Stamps(d, key, w.seconds), w.seconds, now, later);
    if pruned != [] {
      OldestIsLeast(pruned);
      TruncateBelow(Oldest(pruned) + w.seconds as real - now);
      PruneNothing(pruned, w.seconds, later);
    }
  }

  /**
   After a denial, any request of at least the same cost that the same key makes less than
   `retry_after - 1` seconds later is denied again, whatever happened in between.
   */
  lemma RetryAfterIsSound(policies: Policies, requests: seq<Request>, i: nat, j: nat)
    requires Proper(policies, requests) && i < j < |requests|
    requires requests[j].key == requests[i].key && requests[j].cost >= requests[i].cost
    requires !VerdictAt(policies, requests, i).allowed
    ensures VerdictAt(policies, requests, i).retryAfter.Some?
    ensures requests[j].now - requests[i].now < VerdictAt(policies, requests, i).retryAfter.value as real - 1.0
      ==> !VerdictAt(policies, requests, j).allowed
  {
    hide Prune, Run, Look, Suggestion, Consume;
    var a, b := requests[i], requests[j];
    var windows := policies[a.key].windows;
    assert Proper(policies, requests[..i]) && Proper(policies, requests[..j]);
    var d, e := Run(policies, requests[..i]), Run(policies, requests[..j]);
    LookDecides(d, a.key, windows, Charge(a.cost), a.now);
    var m :| 0 <= m < |windows| && !Fits(d, a.key, windows[m], Charge(a.cost), a.now);
    var r := VerdictAt(policies, requests, i).retryAfter.value;
    if b.now - a.now < r as real - 1.0 {
      assert r <= Suggestion(d, a.key, windows[m], a.now);
      StaysFull(d, a.key, windows[m], a.now, b.now);
      assert requests[..j][..i] == requests[..i];
      UsageGrows(policies, requests[..j], i, a.key, windows[m].seconds, b.now);
      AllowedIffFits(e, a.key, policies[a.key], b.cost, b.now);
      assert !Fits(e, a.key, windows[m], Charge(b.cost), b.now);
    }
  }

  // --- coming back ---------------------------------------------------------------------------

  /** The stamps that a window holds at `now` and no longer holds at `later`. */
  function Leaving(stamps: seq<real>, seconds: int, now: real, later: real): nat {
    if stamps == [] then 0
    else
      var n := |stamps| - 1;
      Leaving(stamps[..n], seconds, now, later)
      + if now - seconds as real < stamps[n] <= later - seconds as real then 1 else 0
  }

  lemma {:induction false} LeavingIsDifference(stamps: seq<real>, seconds: int, now: real, later: real)
    requires now <= later
    ensures |Prune(stamps, seconds, now)| == |Prune(stamps, seconds, later)| + Leaving(stamps, seconds, now, later)
  {
    if stamps != [] {
      LeavingIsDifference(stamps[..|stamps| - 1], seconds, now, later);
    }
  }

  /** By how much a request is too much for a window. */
  function Excess(d: Data, key: string, w: Window, charge: nat, now: real): int {
    Usage(d, key, w.seconds, now) + charge - w.limit
  }

  /**
   When coming back helps: after a denial, the same request made at any later instant, with no
   request of the key in between, is allowed exactly when as many stamps have left each window
   as the request was too much for it.
   */
  lemma ComingBackHelps(d: Data, key: string, policy: Policy, cost: int, now: real, later: real)
    requires policy.windows != [] && now <= later && !Check(d, key, policy, cost, now).verdict.allowed
    ensures Check(Check(d, key, policy, cost, now).data, key, policy, cost, later).verdict.allowed
       <==> forall i :: 0 <= i < |policy.windows| ==>
              var w := policy.windows[i];
              Leaving(Stamps(d, key, w.seconds), w.seconds, now, later) >= Excess(d, key, w, Charge(cost), now)
  {
    hide Prune, Charge, Look, Leaving, Consume;
    var windows, e := policy.windows, Check(d, key, policy, cost, now).data;
    AllowedIffFits(e, key, policy, cost, later);
    forall i | 0 <= i < |windows|
      ensures Fits(e, key, windows[i], Charge(cost), later)
         <==> Leaving(Stamps(d, key, windows[i].seconds), windows[i].seconds, now, later) >= Excess(d, key, windows[i], Charge(cost), now)
    {
      LookKeepsUsage(d, key, windows, Charge(cost), now, later, key, windows[i].seconds);
      LeavingIsDifference(Stamps(d, key, windows[i].seconds), windows[i].seconds, now, later);
    }
  }

  lemma TruncateAbove(x: real)
    requires x >= 0.0
    ensures Truncate(x) >= 0 && (Truncate(x) + 1) as real > x
  {
  }

  lemma {:induction false} SomethingLeaves(stamps: seq<real>, seconds: int, now: real, later: real, x: real)
    requires x in stamps && now - seconds as real < x <= later - seconds as real
    ensures Leaving(stamps, seconds, now, later) >= 1
  {
    var n := |stamps| - 1;
    if stamps[n] != x {
      assert x in stamps[..n];
      SomethingLeaves(stamps[..n], seconds, now, later, x);
    }
  }

  lemma {:induction false} NothingLeaves(stamps: seq<real>, seconds: int, now: real, later: real)
    requires forall i :: 0 <= i < |stamps| && stamps[i] > now - seconds as real ==> stamps[i] > later - seconds as real
    ensures Leaving(stamps, seconds, now, later) == 0
  {
    if stamps != [] {
      var n := |stamps| - 1;
      assert forall i :: 0 <= i < n ==> stamps[..n][i] == stamps[i];
      NothingLeaves(stamps[..n], seconds, now, later);
    }
  }

  /** The stamps a window still counts. */
  function Recent(d: Data, key: string, w: Window, now: real): seq<real> {
    Prune(Stamps(d, key, w.seconds), w.seconds, now)
  }

  /** A nonempty window loses a stamp by `later` exactly when its oldest one is out by then. */
  lemma OldestLeaves(d: Data, key: string, w: Window, now: real, later: real)
    requires Recent(d, key, w, now) != []
    ensures Leaving(Stamps(d, key, w.seconds), w.seconds, now, later) >= 1
       <==> Oldest(Recent(d, key, w, now)) + w.seconds as real <= later
  {
    hide Prune, Leaving;
    var stamps := Stamps(d, key, w.seconds);
    PruneMembers(stamps, w.seconds, now);
    OldestIsLeast(Recent(d, key, w, now));
    var oldest := Oldest(Recent(d, key, w, now));
    if oldest + w.seconds as real <= later {
      SomethingLeaves(stamps, w.seconds, now, later, oldest);
    } else {
      forall i | 0 <= i < |stamps| && stamps[i] > now - w.seconds as real
        ensures stamps[i] > later - w.seconds as real
      {
        assert stamps[i] in Recent(d, key, w, now);
      }
      NothingLeaves(stamps, w.seconds, now, later);
    }
  }

  /** No window is fuller than its limit, however low that is. */
  ghost predicate WithinLimits(d: Data, key: string, policy: Policy, now: real) {
    forall i :: 0 <= i < |policy.windows| ==> Within(d, key, policy.windows[i], now)
  }

  ghost predicate Within(d: Data, key: string, w: Window, now: real) {
    Usage(d, key, w.seconds, now) <= if w.limit > 0 then w.limit else 0
  }

  ghost predicate OutBy(d: Data, key: string, w: Window, charge: nat, now: real, later: real) {
    Fits(d, key, w, charge, now) || (Recent(d, key, w, now) != [] && Oldest(Recent(d, key, w, now)) + w.seconds as real <= later)
  }

  /** For a request of one unit: coming back helps exactly when the oldest stamp of every full window is out. */
  lemma UnitComesBack(d: Data, key: string, policy: Policy, cost: int, now: real, later: real)
    requires policy.windows != [] && now <= later && cost <= 1 && WithinLimits(d, key, policy, now)
    requires !Check(d, key, policy, cost, now).verdict.allowed
    ensures Check(Check(d, key, policy, cost, now).data, key, policy, cost, later).verdict.allowed
       <==> forall i :: 0 <= i < |policy.windows| ==> OutBy(d, key, policy.windows[i], 1, now, later)
  {
    hide Check, Prune, Leaving;
    ComingBackHelps(d, key, policy, cost, now, later);
    forall i | 0 <= i < |policy.windows|
      ensures Leaving(Stamps(d, key, policy.windows[i].seconds), policy.windows[i].seconds, now, later) >= Excess(d, key, policy.windows[i], Charge(cost), now)
         <==> OutBy(d, key, policy.windows[i], 1, now, later)
    {
      var w := policy.windows[i];
      assert Within(d, key, w, now);
      if Recent(d, key, w, now) != [] {
        OldestLeaves(d, key, w, now, later);
      } else {
        LeavingIsDifference(Stamps(d, key, w.seconds), w.seconds, now, later);
      }
    }
  }

  /** With a single window and requests of one unit, the suggestion is a promise: at `retry_after` the oldest stamp is out. */
  lemma UnitPromise(d: Data, key: string, policy: Policy, cost: int, now: real, later: real)
    requires |policy.windows| == 1 && policy.windows[0].limit >= 1 && cost <= 1 && WithinLimits(d, key, policy, now)
    requires var v := Check(d, key, policy, cost, now).verdict;
             !v.allowed && (v.retryAfter.Some? ==> later >= now + v.retryAfter.value as real)
    ensures Check(d, key, policy, cost, now).verdict.retryAfter.Some?
    ensures Check(Check(d, key, policy, cost, now).data, key, policy, cost, later).verdict.allowed
  {
    hide Prune, Look, Consume, Truncate, Oldest;
    var w := policy.windows[0];
    assert Within(d, key, w, now);
    LookDecides(d, key, policy.windows, 1, now);
    AllowedIffFits(d, key, policy, cost, now);
    var recent := Recent(d, key, w, now);
    assert !Fits(d, key, w, 1, now) && recent != [];
    OldestIsLeast(recent);
    PruneMembers(Stamps(d, key, w.seconds), w.seconds, now);
    TruncateAbove(Oldest(recent) + w.seconds as real - now);
    assert Check(d, key, policy, cost, now).verdict.retryAfter == Some(Suggestion(d, key, w, now));
    UnitComesBack(d, key, policy, cost, now, later);
  }

  // --- ... in runs ------------------------------------------------------------------------------

  /** Requests of other keys leave a key's usage alone. */
  lemma {:induction false} OthersDoNotMatter(policies: Policies, requests: seq<Request>, i: nat, key: string, seconds: int, later: real)
    requires Proper(policies, requests) && i <= |requests|
    requires forall j :: 0 <= j < |requests| ==> requests[j].now <= later
    requires forall j :: i <= j < |requests| ==> requests[j].key != key
    ensures Proper(policies, requests[..i])
    ensures Usage(Run(policies, requests), key, seconds, later) == Usage(Run(policies, requests[..i]), key, seconds, later)
    decreases |requests|
  {
    hide Prune, Check, Charge, Usage, Sharing;
    if i == |requests| {
      assert requests[..i] == requests;
    } else {
      var n := |requests| - 1;
      var e := requests[n];
      assert Proper(policies, requests[..n]);
      assert requests[..n][..i] == requests[..i];
      OthersDoNotMatter(policies, requests[..n], i, key, seconds, later);
      CheckCharges(Run(policies, requests[..n]), e.key, policies[e.key], e.cost, e.now, key, seconds, later);
    }
  }

  /** Verdicts depend on the windows' usage only. */
  lemma SameUsageSameVerdict(d: Data, e: Data, key: string, policy: Policy, cost: int, now: real)
    requires policy.windows != []
    requires forall i :: 0 <= i < |policy.windows| ==> Usage(d, key, policy.windows[i].seconds, now) == Usage(e, key, policy.windows[i].seconds, now)
    ensures Check(d, key, policy, cost, now).verdict.allowed == Check(e, key, policy, cost, now).verdict.allowed
  {
    hide Check, Usage, Charge;
    AllowedIffFits(d, key, policy, cost, now);
    AllowedIffFits(e, key, policy, cost, now);
    forall i | 0 <= i < |policy.windows|
      ensures Fits(d, key, policy.windows[i], Charge(cost), now) <==> Fits(e, key, policy.windows[i], Charge(cost), now)
    {
    }
  }

  /** In a run, a denied request that is repeated with no request of its key in between. */
  ghost predicate Repeats(requests: seq<Request>, i: nat, j: nat) {
    && i < j < |requests| && requests[j].key == requests[i].key && requests[j].cost == requests[i].cost
    && forall k :: i < k < j ==> requests[k].key != requests[i].key
  }

  lemma RepeatIsComingBack(policies: Policies, requests: seq<Request>, i: nat, j: nat)
    requires Proper(policies, requests) && Repeats(requests, i, j)
    ensures Proper(policies, requests[..i])
    ensures var d, a := Run(policies, requests[..i]), requests[i];
            VerdictAt(policies, requests, j).allowed
            == Check(Check(d, a.key, policies[a.key], a.cost, a.now).data, a.key, policies[a.key], a.cost, requests[j].now).verdict.allowed
  {
    hide Check, Usage, Run;
    var a, before := requests[i], requests[..j];
    assert Proper(policies, before) && Proper(policies, requests[..i]) && Proper(policies, requests[..i + 1]);
    assert before[..i + 1] == requests[..i + 1] && requests[..i + 1][..i] == requests[..i];
    RunStep(policies, requests[..i + 1]);
    forall k | 0 <= k < |policies[a.key].windows|
      ensures Usage(Run(policies, before), a.key, policies[a.key].windows[k].seconds, requests[j].now)
           == Usage(Run(policies, requests[..i + 1]), a.key, policies[a.key].windows[k].seconds, requests[j].now)
    {
      OthersDoNotMatter(policies, before, i + 1, a.key, policies[a.key].windows[k].seconds, requests[j].now);
    }
    SameUsageSameVerdict(Run(policies, before), Run(policies, requests[..i + 1]), a.key, policies[a.key], a.cost, requests[j].now);
  }

  lemma RunStep(policies: Policies, requests: seq<Request>)
    requires Proper(policies, requests) && requests != []
    ensures var n := |requests| - 1;
            && Proper(policies, requests[..n])
            && Run(policies, requests)
               == Check(Run(policies, requests[..n]), requests[n].key, policies[requests[n].key], requests[n].cost, requests[n].now).data
  {
    assert Proper(policies, requests[..|requests| - 1]);
  }

  /**
   A denied request that is repeated, with no request of its key in between, is allowed exactly
   when as many stamps have left each window as it was too much for it.
   */
  lemma RetryHelps(policies: Policies, requests: seq<Request>, i: nat, j: nat)
    requires Proper(policies, requests) && Repeats(requests, i, j) && !VerdictAt(policies, requests, i).allowed
    ensures Proper(policies, requests[..i])
    ensures var d, a, windows := Run(policies, requests[..i]), requests[i], policies[requests[i].key].windows;
            VerdictAt(policies, requests, j).allowed
            <==> forall k :: 0 <= k < |windows| ==>
                   Leaving(Stamps(d, a.key, windows[k].seconds), windows[k].seconds, a.now, requests[j].now)
                   >= Excess(d, a.key, windows[k], Charge(a.cost), a.now)
  {
    hide Check, Run, Leaving, Excess, Charge;
    RepeatIsComingBack(policies, requests, i, j);
    ComingBackHelps(Run(policies, requests[..i]), requests[i].key, policies[requests[i].key], requests[i].cost, requests[i].now, requests[j].now);
  }

  /** No run fills a window beyond its limit that does not share its log. */
  lemma {:induction false} RunsStayWithin(policies: Policies, requests: seq<Request>, key: string, i: nat, later: real)
    requires Proper(policies, requests) && key in policies && i < |policies[key].windows|
    requires Sharing(policies[key].windows, policies[key].windows[i].seconds) == 1
    requires forall j :: 0 <= j < |requests| ==> requests[j].now <= later
    ensures Within(Run(policies, requests), key, policies[key].windows[i], later)
  {
    hide Prune, Check, Charge, Sharing, Usage;
    var w := policies[key].windows[i];
    if requests == [] {
      EmptyUsage(key, w.seconds, later);
    } else {
      var n := |requests| - 1;
      var e := requests[n];
      assert Proper(policies, requests[..n]);
      var d := Run(policies, requests[..n]);
      RunsStayWithin(policies, requests[..n], key, i, later);
      CheckCharges(d, e.key, policies[e.key], e.cost, e.now, key, w.seconds, later);
      if e.key == key && Check(d, e.key, policies[e.key], e.cost, e.now).verdict.allowed {
        AllowedIffFits(d, key, policies[key], e.cost, e.now);
        assert Fits(d, key, w, Charge(e.cost), e.now);
        UsageFalls(d, key, w.seconds, e.now, later);
        Distributes(Charge(e.cost), 0, 1);
      }
    }
  }

  lemma RunWithinLimits(policies: Policies, requests: seq<Request>, key: string, later: real)
    requires Proper(policies, requests) && key in policies && DistinctLengths(policies[key].windows)
    requires forall j :: 0 <= j < |requests| ==> requests[j].now <= later
    ensures WithinLimits(Run(policies, requests), key, policies[key], later)
  {
    hide Sharing, Within, Run;
    forall i | 0 <= i < |policies[key].windows|
      ensures Within(Run(policies, requests), key, policies[key].windows[i], later)
    {
      SharingIsOne(policies[key].windows, i);
      RunsStayWithin(policies, requests, key, i, later);
    }
  }

  lemma EmptyUsage(key: string, seconds: int, now: real)
    ensures Usage(map[], key, seconds, now) == 0
  {
  }

  lemma UsageFalls(d: Data, key: string, seconds: int, now: real, later: real)
    requires now <= later
    ensures Usage(d, key, seconds, later) <= Usage(d, key, seconds, now)
  {
    LeavingIsDifference(Stamps(d, key, seconds), seconds, now, later);
  }

  /**
   A denied request of one unit that is repeated, at `retry_after` or any other time, with no
   request of its key in between, is allowed exactly when the oldest stamp of every window that
   was full is out by then.
   */
  lemma UnitRetryHelps(policies: Policies, requests: seq<Request>, i: nat, j: nat)
    requires Proper(policies, requests) && Repeats(requests, i, j) && requests[i].cost <= 1
    requires DistinctLengths(policies[requests[i].key].windows) && !VerdictAt(policies, requests, i).allowed
    ensures Proper(policies, requests[..i])
    ensures var d, a, windows := Run(policies, requests[..i]), requests[i], policies[requests[i].key].windows;
            VerdictAt(policies, requests, j).allowed <==> forall k :: 0 <= k < |windows| ==> OutBy(d, a.key, windows[k], 1, a.now, requests[j].now)
  {
    hide Check, Run, WithinLimits, OutBy;
    var a := requests[i];
    assert Proper(policies, requests[..i]);
    RunWithinLimits(policies, requests[..i], a.key, a.now);
    RepeatIsComingBack(policies, requests, i, j);
    UnitComesBack(Run(policies, requests[..i]), a.key, policies[a.key], a.cost, a.now, requests[j].now);
  }

  /**
   Retry-After is a promise for keys with a single window and requests of one unit: repeated
   `retry_after` seconds later or more, with no request of the key in between, the request is allowed.
   */
  lemma RetryAfterIsAPromise(policies: Policies, requests: seq<Request>, i: nat, j: nat)
    requires Proper(policies, requests) && Repeats(requests, i, j) && requests[i].cost <= 1
    requires |policies[requests[i].key].windows| == 1 && policies[requests[i].key].windows[0].limit >= 1
    requires !VerdictAt(policies, requests, i).allowed
    ensures VerdictAt(policies, requests, i).retryAfter.Some?
    ensures requests[j].now >= requests[i].now + VerdictAt(policies, requests, i).retryAfter.value as real
      ==> VerdictAt(policies, requests, j).allowed
  {
    hide Check, Run, WithinLimits;
    var a := requests[i];
    assert Proper(policies, requests[..i]);
    RunWithinLimits(policies, requests[..i], a.key, a.now);
    RepeatIsComingBack(policies, requests, i, j);
    var d := Run(policies, requests[..i]);
    DeniedSuggests(d, a.key, policies[a.key], a.cost, a.now);
    if requests[j].now >= a.now + VerdictAt(policies, requests, i).retryAfter.value as real {
      UnitPromise(d, a.key, policies[a.key], a.cost, a.now, requests[j].now);
    }
  }

  lemma DeniedSuggests(d: Data, key: string, policy: Policy, cost: int, now: real)
    requires policy.windows != [] && !Check(d, key, policy, cost, now).verdict.allowed
    ensures Check(d, key, policy, cost, now).verdict.retryAfter.Some?
  {
    hide Look;
    LookDecides(d, key, policy.windows, Charge(cost), now);
  }

  // --- and where it is not one ----------------------------------------------------------------

  function OneOf(limit: int, seconds: int): Policies { map["k" := Policy("p", [Window(limit, seconds)])] }

  /** One unit at 0, one at 5, two at 5 and two again at 11. */
  function FourRequests(): seq<Request> {
    [Request("k", 1, 0.0), Request("k", 1, 5.0), Request("k", 2, 5.0), Request("k", 2, 11.0)]
  }

  /**
   With larger requests it is not: with a limit of 2 in 10 seconds the third of these requests is
   told to come back in 6 seconds, and at 11 it is denied again.
   */
  lemma RetryAfterIsNoPromise()
    ensures var policies, requests := OneOf(2, 10), FourRequests();
            && Proper(policies, requests) && Repeats(requests, 2, 3)
            && VerdictAt(policies, requests, 0).allowed && VerdictAt(policies, requests, 1).allowed
            && !VerdictAt(policies, requests, 2).allowed && VerdictAt(policies, requests, 2).retryAfter == Some(6)
            && requests[3].now == requests[2].now + 6.0 && !VerdictAt(policies, requests, 3).allowed
  {
    hide *;
    var policies, requests := OneOf(2, 10), FourRequests();
    FourAreProper();
    assert requests[3].now == requests[2].now + 6.0 by { FourFacts(); }
    var p := Policy("p", [Window(2, 10)]);
    FourFacts();
    FourStates(policies, requests, p);
    FourVerdicts(policies, requests, p, 0);
    FourVerdicts(policies, requests, p, 1);
    FourVerdicts(policies, requests, p, 2);
    FourVerdicts(policies, requests, p, 3);
    StampsAfter(Run(policies, requests[..0]), [], p, 1, 0.0);
    StampsAfter(Run(policies, requests[..1]), [0.0], p, 1, 5.0);
    StampsAfter(Run(policies, requests[..2]), [0.0, 5.0], p, 2, 5.0);
    StampsAfter(Run(policies, requests[..3]), [0.0, 5.0], p, 2, 11.0);
  }

  lemma FourFacts()
    ensures var policies, requests := OneOf(2, 10), FourRequests();
            && "k" in policies && policies["k"] == Policy("p", [Window(2, 10)])
            && |requests| == 4
            && requests[0] == Request("k", 1, 0.0) && requests[1] == Request("k", 1, 5.0)
            && requests[2] == Request("k", 2, 5.0) && requests[3] == Request("k", 2, 11.0)
  {
  }

  lemma FourAreProper()
    ensures Proper(OneOf(2, 10), FourRequests()) && Repeats(FourRequests(), 2, 3)
  {
  }

  lemma FourVerdicts(policies: Policies, requests: seq<Request>, p: Policy, i: nat)
    requires Proper(policies, requests) && i < |requests| && "k" in policies && p == policies["k"] && requests[i].key == "k"
    ensures Proper(policies, requests[..i])
    ensures VerdictAt(policies, requests, i) == Check(Run(policies, requests[..i]), "k", p, requests[i].cost, requests[i].now).verdict
  {
    hide Check, Run;
    assert Proper(policies, requests[..i]);
  }

  /** The log before each of the four requests. */
  lemma FourStates(policies: Policies, requests: seq<Request>, p: Policy)
    requires Proper(policies, requests) && "k" in policies && p == policies["k"] == Policy("p", [Window(2, 10)])
    requires |requests| == 4 && requests[0] == Request("k", 1, 0.0) && requests[1] == Request("k", 1, 5.0) && requests[2] == Request("k", 2, 5.0)
    ensures Proper(policies, requests[..0]) && Proper(policies, requests[..1]) && Proper(policies, requests[..2]) && Proper(policies, requests[..3])
    ensures Stamps(Run(policies, requests[..0]), "k", 10) == []
    ensures Stamps(Run(policies, requests[..1]), "k", 10) == [0.0]
    ensures Stamps(Run(policies, requests[..2]), "k", 10) == [0.0, 5.0]
    ensures Stamps(Run(policies, requests[..3]), "k", 10) == [0.0, 5.0]
  {
    hide Check, Run;
    assert Proper(policies, requests[..0]) && Proper(policies, requests[..1]) && Proper(policies, requests[..2]) && Proper(policies, requests[..3]);
    EmptyRun(policies);
    StampsAfter(Run(policies, requests[..0]), [], p, 1, 0.0);
    assert requests[..1][..0] == requests[..0];
    RunStep(policies, requests[..1]);
    StampsAfter(Run(policies, requests[..1]), [0.0], p, 1, 5.0);
    assert requests[..2][..1] == requests[..1];
    RunStep(policies, requests[..2]);
    StampsAfter(Run(policies, requests[..2]), [0.0, 5.0], p, 2, 5.0);
    assert requests[..3][..2] == requests[..2];
    RunStep(policies, requests[..3]);
  }

  lemma EmptyRun(policies: Policies)
    requires Proper(policies, [])
    ensures Run(policies, []) == map[]
  {
  }

  /** What one check makes of a log of at most two stamps, for a limit of 2 in 10 seconds. */
  lemma StampsAfter(d: Data, stamps: seq<real>, p: Policy, cost: int, now: real)
    requires p == Policy("p", [Window(2, 10)]) && Stamps(d, "k", 10) == stamps
    requires (stamps == [] && now == 0.0 && cost == 1) || (stamps == [0.0] && now == 5.0 && cost == 1)
          || (stamps == [0.0, 5.0] && (now == 5.0 || now == 11.0) && cost == 2)
    ensures var r := Check(d, "k", p, cost, now);
            && r.verdict.allowed == (stamps == [] || stamps == [0.0])
            && (stamps == [] || stamps == [0.0] ==> Stamps(r.data, "k", 10) == stamps + [now])
            && (now == 5.0 && cost == 2 ==> r.verdict.retryAfter == Some(6) && Stamps(r.data, "k", 10) == stamps)
  {
    hide Prune, Copies, Oldest, Look, Consume;
    var w := Window(2, 10);
    OneWindow(d, "k", w, cost, now);
    OneConsume(Look(d, "k", [w], cost, now).data, "k", w, cost, now);
    assert p.windows == [w] && [w][..0] == [];
    assert Copies(now, 1) == [now] by { OneCopy(now); }
    if now == 11.0 {
      PruneTwo(0.0, 5.0, 10, 11.0);
    } else {
      PruneNothing(stamps, 10, now);
    }
    if stamps == [0.0, 5.0] {
      assert Oldest(stamps) == 0.0 by { OldestIsLeast(stamps); assert stamps[0] == 0.0; }
    }
  }

  lemma OneConsume(d: Data, key: string, w: Window, cost: nat, now: real)
    ensures Consume(d, key, [w], cost, now)
      == d[(key, w.seconds) := Prune(Stamps(d, key, w.seconds), w.seconds, now) + Copies(now, cost)]
  {
    assert [w][..0] == [];
  }

  lemma OneCopy(now: real)
    ensures Copies(now, 1) == [now]
  {
    assert Copies(now, 0) == [];
  }

  lemma PruneTwo(a: real, b: real, seconds: int, now: real)
    requires a <= now - seconds as real < b
    ensures Prune([a, b], seconds, now) == [b]
  {
    hide Prune;
    PruneOfConcatenation([a], [b], seconds, now);
    PruneOne(a, seconds, now);
    PruneOne(b, seconds, now);
    assert [a] + [b] == [a, b];
  }

  lemma OneWindow(d: Data, key: string, w: Window, cost: nat, now: real)
    ensures Look(d, key, [w], cost, now) == Observe(Survey(d, true, None, None, 0), key, w, cost, now)
  {
    assert [w][..0] == [];
  }
}
