/**
 `InMemoryRateLimiter` in its own form: a dictionary of logs that the two loops of `check_limit`
 rewrite. The methods refine `RateLimit`.
 */
module RateLimiter {
  import opened Wrappers
  import opened RateLimit

  class InMemoryRateLimiter {
    var data: Data

    constructor ()
      ensures data == map[]
    {
      data := map[];
    }

    method PruneWindow(stamps: seq<real>, seconds: int, now: real) returns (pruned: seq<real>)
      ensures pruned == Prune(stamps, seconds, now)
    {
      var cutoff := now - seconds as real;
      pruned := [];
      for i := 0 to |stamps|
        invariant pruned == Prune(stamps[..i], seconds, now)
      {
        assert stamps[..i + 1][..i] == stamps[..i];
        if stamps[i] > cutoff {
          pruned := pruned + [stamps[i]];
        }
      }
      assert stamps[..|stamps|] == stamps;
    }

    method Earliest(stamps: seq<real>) returns (oldest: real)
      requires stamps != []
      ensures oldest == Oldest(stamps)
    {
      oldest := stamps[0];
      for i := 1 to |stamps|
        invariant oldest == Oldest(stamps[..i])
      {
        assert stamps[..i + 1][..i] == stamps[..i];
        if stamps[i] < oldest {
          oldest := stamps[i];
        }
      }
      assert stamps[..|stamps|] == stamps;
    }

    /** One window of the first loop. */
    method LookAtWindow(key: string, w: Window, cost: nat, now: real, retryBefore: Option<int>, tightestBefore: Option<Tightest>)
      returns (fits: bool, retryAfter: Option<int>, tightest: Option<Tightest>)
      modifies this
      ensures var pruned := Prune(Stamps(old(data), key, w.seconds), w.seconds, now);
              && data == old(data)[(key, w.seconds) := pruned]
              && fits == (|pruned| + cost <= w.limit)
              && retryAfter == (if fits then retryBefore else Sooner(retryBefore, ComeBack(pruned, w.seconds, now)))
              && tightest == if tightestBefore.None? || w.limit - |pruned| - cost < tightestBefore.value.remaining
                             then Some(Tightest(w.limit - |pruned| - cost, |pruned|, w.limit)) else tightestBefore
    {
      hide Prune, Oldest, Truncate;
      retryAfter, tightest := retryBefore, tightestBefore;
      var pruned := PruneWindow(Stamps(data, key, w.seconds), w.seconds, now);
      data := data[(key, w.seconds) := pruned];
      var count := |pruned|;
      fits := count + cost <= w.limit;
      if !fits {
        var oldest := now;
        if pruned != [] {
          oldest := Earliest(pruned);
        }
        var suggestion := Truncate(oldest + w.seconds as real - now) + 1;
        if retryAfter.None? || suggestion < retryAfter.value {
          retryAfter := Some(if suggestion > 1 then suggestion else 1);
        }
      }
      var remaining := w.limit - count - cost;
      if tightest.None? || remaining < tightest.value.remaining {
        tightest := Some(Tightest(remaining, count, w.limit));
      }
    }

    /** The first loop: every window is pruned and compared, and nothing is consumed. */
    method LookAtWindows(key: string, windows: seq<Window>, cost: nat, now: real)
      returns (allowed: bool, retryAfter: Option<int>, tightest: Option<Tightest>, reset: int)
      modifies this
      ensures Survey(data, allowed, retryAfter, tightest, reset) == Look(old(data), key, windows, cost, now)
    {
      hide Prune, ComeBack, Sooner;
      allowed, retryAfter, tightest, reset := true, None, None, 0;
      for i := 0 to |windows|
        invariant Survey(data, allowed, retryAfter, tightest, reset) == Look(old(data), key, windows[..i], cost, now)
      {
        assert windows[..i + 1][..i] == windows[..i];
        var fits;
        fits, retryAfter, tightest := LookAtWindow(key, windows[i], cost, now, retryAfter, tightest);
        if !fits {
          allowed := false;
        }
        if windows[i].seconds > reset {
          reset := windows[i].seconds;
        }
      }
      assert windows[..|windows|] == windows;
    }

    /** The second loop: the cost is appended to every window's log. */
    method ConsumeCost(key: string, windows: seq<Window>, cost: nat, now: real)
      modifies this
      ensures data == Consume(old(data), key, windows, cost, now)
    {
      hide Prune;
      for i := 0 to |windows|
        invariant data == Consume(old(data), key, windows[..i], cost, now)
      {
        assert windows[..i + 1][..i] == windows[..i];
        var w := windows[i].seconds;
        var pruned := PruneWindow(Stamps(data, key, w), w, now);
        var stamps := pruned;
        for k := 0 to cost
          invariant stamps == pruned + Copies(now, k)
        {
          stamps := stamps + [now];
        }
        data := data[(key, w) := stamps];
      }
      assert windows[..|windows|] == windows;
    }

    /** `check_limit`. */
    method CheckLimit(key: string, policy: Policy, cost: int, now: real) returns (verdict: Verdict)
      requires policy.windows != []
      modifies this
      ensures Outcome(data, verdict) == Check(old(data), key, policy, cost, now)
    {
      hide Look, Consume;
      var charge: nat := if cost < 1 then 1 else cost;
      var allowed, retryAfter, tightest, reset := LookAtWindows(key, policy.windows, charge, now);
      LookHasTightest(old(data), key, policy.windows, charge, now);
      if allowed {
        ConsumeCost(key, policy.windows, charge, now);
      }
      verdict := Verdict(
        allowed,
        tightest.value.count + (if allowed then charge else 0),
        tightest.value.limit,
        if allowed && tightest.value.remaining > 0 then tightest.value.remaining else 0,
        reset, retryAfter, policy.name);
    }

    /** `get_current_usage`. */
    method GetCurrentUsage(key: string, seconds: int, now: real) returns (usage: nat)
      ensures usage == Usage(data, key, seconds, now)
    {
      var pruned := PruneWindow(Stamps(data, key, seconds), seconds, now);
      usage := |pruned|;
    }
  }
}
