/**
 The sliding-window rate limiter: one pruned log of timestamps per key and window length. A call
 reads the clock once. Windows of equal length share a log, as they do in the source.
 */
module RateLimit {
  import opened Wrappers

  datatype Window = Window(limit: int, seconds: int)

  datatype Policy = Policy(name: string, windows: seq<Window>)

  datatype Verdict = Verdict(
    allowed: bool, currentCount: int, limit: int, remaining: int,
    resetSeconds: int, retryAfter: Option<int>, policyName: string)

  type Data = map<(string, int), seq<real>>

  function Stamps(d: Data, key: string, seconds: int): seq<real> {
    if (key, seconds) in d then d[(key, seconds)] else []
  }

  /** `_prune_window`: the timestamps later than `now - seconds`. */
  function Prune(stamps: seq<real>, seconds: int, now: real): seq<real> {
    if stamps == [] then []
    else
      var n := |stamps| - 1;
      Prune(stamps[..n], seconds, now) + (if stamps[n] > now - seconds as real then [stamps[n]] else [])
  }

  /** `get_current_usage`. */
  function Usage(d: Data, key: string, seconds: int, now: real): nat {
    |Prune(Stamps(d, key, seconds), seconds, now)|
  }

  function Oldest(stamps: seq<real>): real
    requires stamps != []
  {
    var n := |stamps| - 1;
    if n == 0 then stamps[0]
    else
      var rest := Oldest(stamps[..n]);
      if stamps[n] < rest then stamps[n] else rest
  }

  /** Python's `int` truncates toward zero. */
  function Truncate(x: real): int {
    if x >= 0.0 then x.Floor else -((-x).Floor)
  }

  /** When a window that is too full suggests to come back. */
  function ComeBack(pruned: seq<real>, seconds: int, now: real): int {
    Truncate((if pruned == [] then now else Oldest(pruned)) + seconds as real - now) + 1
  }

  /** Requests cost at least one unit. */
  function Charge(cost: int): nat { if cost < 1 then 1 else cost }

  datatype Tightest = Tightest(remaining: int, count: int, limit: int)

  datatype Survey = Survey(data: Data, allowed: bool, retryAfter: Option<int>, tightest: Option<Tightest>, reset: int)

  function Sooner(overall: Option<int>, retryAfter: int): Option<int> {
    if overall.None? || retryAfter < overall.value then Some(if retryAfter > 1 then retryAfter else 1) else overall
  }

  /** One window of the first loop: prune, compare, and keep the tightest. */
  function Observe(s: Survey, key: string, w: Window, cost: nat, now: real): Survey {
    var pruned := Prune(Stamps(s.data, key, w.seconds), w.seconds, now);
    var full := |pruned| + cost > w.limit;
    var remaining := w.limit - |pruned| - cost;
    Survey(
      s.data[(key, w.seconds) := pruned],
      s.allowed && !full,
      if full then Sooner(s.retryAfter, ComeBack(pruned, w.seconds, now)) else s.retryAfter,
      if s.tightest.None? || remaining < s.tightest.value.remaining then Some(Tightest(remaining, |pruned|, w.limit)) else s.tightest,
      if w.seconds > s.reset then w.seconds else s.reset)
  }

  function Look(d: Data, key: string, windows: seq<Window>, cost: nat, now: real): Survey {
    if windows == [] then Survey(d, true, None, None, 0)
    else
      var n := |windows| - 1;
      Observe(Look(d, key, windows[..n], cost, now), key, windows[n], cost, now)
  }

  function Copies(now: real, n: nat): seq<real> {
    if n == 0 then [] else Copies(now, n - 1) + [now]
  }

  /** The second loop: the cost goes into every window's log. */
  function Consume(d: Data, key: string, windows: seq<Window>, cost: nat, now: real): Data {
    if windows == [] then d
    else
      var n := |windows| - 1;
      var e := Consume(d, key, windows[..n], cost, now);
      var w := windows[n].seconds;
      e[(key, w) := Prune(Stamps(e, key, w), w, now) + Copies(now, cost)]
  }

  datatype Outcome = Outcome(data: Data, verdict: Verdict)

  lemma {:induction false} LookHasTightest(d: Data, key: string, windows: seq<Window>, cost: nat, now: real)
    requires windows != []
    ensures Look(d, key, windows, cost, now).tightest.Some?
  {
  }

  /** `check_limit`; a policy without windows makes the source raise. */
  function Check(d: Data, key: string, policy: Policy, cost: int, now: real): Outcome
    requires policy.windows != []
  {
    var charge := Charge(cost);
    var look := Look(d, key, policy.windows, charge, now);
    LookHasTightest(d, key, policy.windows, charge, now);
    var tight := look.tightest.value;
    Outcome(
      if look.allowed then Consume(look.data, key, policy.windows, charge, now) else look.data,
      Verdict(
        look.allowed,
        tight.count + (if look.allowed then charge else 0),
        tight.limit,
        if look.allowed && tight.remaining > 0 then tight.remaining else 0,
        look.reset, look.retryAfter, policy.name))
  }
}
