/**
 The work bound: in every run, the service time completed by any moment is at most the
 number of workers times the time elapsed, so without warm-up the reported utilisation
 is the true ratio and the clamp never acts.
 */
module Work {
  import opened Events
  import opened Pipeline
  import opened Discipline
  import opened Effects

  /** How much of an outstanding service is over at `now`. */
  ghost function Spent(e: Entry, now: real): real {
    if e.event.ServerDone? then now - (e.time - e.event.service) else 0.0
  }

  ghost function Elapsed(q: seq<Entry>, now: real): real {
    if q == [] then 0.0 else Spent(q[0], now) + Elapsed(q[1..], now)
  }

  /** Every outstanding service has begun. */
  ghost predicate Begun(q: seq<Entry>, clock: real) {
    forall e :: e in q && e.event.ServerDone? ==> e.event.service >= 0.0 && e.time - e.event.service <= clock
  }

  /** Work done, finished or not, fits in the workers' time. */
  ghost predicate Earned(c: Config, q: seq<Entry>, clock: real, work: real) {
    Begun(q, clock) && work + Elapsed(q, clock) <= c.workers as real * clock
  }

  lemma {:induction false} InsertElapsed(q: seq<Entry>, e: Entry, now: real)
    ensures Elapsed(Insert(q, e), now) == Elapsed(q, now) + Spent(e, now)
  {
    if q == [] || Before(e, q[0]) {
      assert Insert(q, e)[1..] == q;
    } else {
      assert Insert(q, e)[1..] == Insert(q[1..], e);
      InsertElapsed(q[1..], e, now);
    }
  }

  /** As the clock runs, every busy worker earns at the rate of time. */
  lemma {:induction false} ElapsedGrows(q: seq<Entry>, now: real, later: real)
    requires now <= later
    ensures Elapsed(q, later) <= Elapsed(q, now) + Total(q, Servers) as real * (later - now)
  {
    if q != [] {
      ElapsedGrows(q[1..], now, later);
      var n := Total(q[1..], Servers);
      assert (n + 1) as real * (later - now) == n as real * (later - now) + (later - now);
    }
  }

  lemma ElapsedWithin(q: seq<Entry>, now: real, later: real, workers: nat)
    requires now <= later && Total(q, Servers) <= workers
    ensures Elapsed(q, later) <= Elapsed(q, now) + workers as real * (later - now)
  {
    hide Elapsed, Total;
    ElapsedGrows(q, now, later);
    ScaleUp(Total(q, Servers) as real, workers as real, later - now);
  }

  lemma {:induction false} ElapsedNonNegative(q: seq<Entry>, now: real)
    requires Begun(q, now)
    ensures Elapsed(q, now) >= 0.0
  {
    if q != [] {
      assert q[0] in q;
      assert forall e :: e in q[1..] ==> e in q;
      ElapsedNonNegative(q[1..], now);
    }
  }

  lemma PushEarned(c: Config, q: seq<Entry>, clock: real, work: real, e: Entry)
    requires Earned(c, q, clock, work)
    requires e.event.ServerDone? ==> e.event.service >= 0.0 && e.time == clock + e.event.service
    ensures Earned(c, Insert(q, e), clock, work)
  {
    hide Insert, Elapsed;
    InsertMembers(q, e);
    InsertElapsed(q, e, clock);
  }

  ghost predicate Paid(c: Config, s: State) {
    Earned(c, s.queue, s.clock, s.log.work)
  }

  lemma StartEpochPaid(c: Config, s: State)
    requires Paid(c, s)
    ensures Paid(c, StartEpoch(c, s, s.clock))
  {
    hide Insert, Earned;
    var due := if c.window > 0.0 then s.clock + c.window else s.clock;
    PushEarned(c, s.queue, s.clock, s.log.work, Entry(due, s.stamp + 1, EpochTimer(s.generation + 1)));
  }

  lemma FailPaid(c: Config, s: State, items: seq<Frame>, m: Mechanism)
    requires Paid(c, s)
    ensures Paid(c, Fail(s, items, s.clock, m))
  {
    hide Insert, Earned;
    PushEarned(c, s.queue, s.clock, s.log.work, Entry(s.clock, s.stamp + 1, ServerFailed(items)));
  }

  lemma ServePaid(c: Config, s: State, items: seq<Frame>, reason: Reason, lockWait: real, service: real)
    requires Paid(c, s) && service >= 0.0
    ensures Paid(c, Serve(s, items, s.clock, reason, lockWait, service))
  {
    hide Insert, Earned, Record, Board;
    PushEarned(c, s.queue, s.clock, s.log.work, Entry(s.clock + service, s.stamp + 1, ServerDone(items, service)));
  }

  lemma DispatchPaid(c: Config, s: State, reason: Reason, draw: real)
    requires c.Ok() && Paid(c, s)
    ensures Paid(c, Dispatch(c, s, s.clock, reason, draw))
  {
    hide Insert, Earned, Fail, Serve, Verdict, ServiceTime, LockWait;
    if s.epoch != [] && s.busy < c.workers {
      var verdict, service := Verdict(c, s, s.clock, draw), ServiceTime(c, |s.epoch|);
      var closed := Close(s, s.clock, reason, verdict);
      ServiceIsNonNegative(c, |s.epoch|);
      if verdict.Some? {
        FailPaid(c, closed, s.epoch, verdict.value);
      } else {
        ServePaid(c, closed, s.epoch, reason, LockWait(c, draw), service);
      }
    }
  }

  lemma PlacePaid(c: Config, s: State, frame: Frame, d: Draws)
    requires c.Ok() && Paid(c, s)
    ensures Paid(c, Place(c, s, frame, d))
  {
    hide Insert, Earned, StartEpoch, Dispatch;
    var open := if s.epoch == [] then StartEpoch(c, s, s.clock) else s;
    StartEpochPaid(c, s);
    StartEpochTouches(c, s, s.clock);
    DispatchPaid(c, open.(epoch := open.epoch + [frame]), BySize, d.lock);
  }

  lemma RefillPaid(c: Config, s: State, d: Draws)
    requires c.Ok() && Paid(c, s)
    ensures Paid(c, Refill(c, s, d))
  {
    hide Insert, Earned, StartEpoch, Dispatch;
    StartEpochPaid(c, s);
    StartEpochTouches(c, s, s.clock);
    DispatchPaid(c, Fill(c, StartEpoch(c, s, s.clock)), BySize, d.lock);
    DispatchPaid(c, s, BySize, d.lock);
  }

  lemma {:induction false} DepartPaid(c: Config, s: State, items: seq<Frame>, k: nat, hops: nat -> Hop)
    requires k <= |items| && Paid(c, s)
    ensures Paid(c, Depart(c, s, items, k, hops))
  {
    hide Insert, Earned, Delay;
    if k > 0 {
      DepartPaid(c, s, items, k - 1, hops);
      var t := Depart(c, s, items, k - 1, hops);
      PushEarned(c, t.queue, t.clock, t.log.work, Entry(t.clock + Delay(c, hops(k - 1)), t.stamp + 1, Deliver(items[k - 1].id)));
    }
  }

  /** Popping a completion moves its service from the elapsed time to the completed work. */
  lemma PopEarned(c: Config, q: seq<Entry>, clock: real, work: real)
    requires q != [] && clock <= q[0].time && Earned(c, q, clock, work) && Total(q, Servers) <= c.workers
    ensures Earned(c, q[1..], q[0].time, work + Spent(q[0], q[0].time))
  {
    hide Total;
    var w, later := c.workers as real, q[0].time;
    ElapsedWithin(q, clock, later, c.workers);
    assert w * later == w * clock + w * (later - clock);
  }

  lemma PopPaid(c: Config, s: State)
    requires c.Ok() && Orderly(c, s) && Paid(c, s) && s.queue != []
    ensures var e := s.queue[0].event;
            Earned(c, s.queue[1..], s.queue[0].time, s.log.work + (if e.ServerDone? then e.service else 0.0))
  {
    hide Elapsed, Earned, Insert, Total;
    assert s.queue[0] in s.queue;
    PopEarned(c, s.queue, s.clock, s.log.work);
  }

  lemma StepPaid(c: Config, s: State, d: Draws)
    requires c.Ok() && Orderly(c, s) && Paid(c, s) && Live(c, s)
    ensures Paid(c, Step(c, s, d))
  {
    hide Insert, Earned, Place, Refill, Depart, Dispatch, Sample, OnDeliver, Orderly;
    PopPaid(c, s);
    var p := Pop(s);
    match s.queue[0].event
    case Arrival =>
      PlacePaid(c, Capture(c, p), Frame(p.clock, p.next), d);
      var r := Place(c, Capture(c, p), Frame(p.clock, p.next), d);
      PlaceTouches(c, Capture(c, p), Frame(p.clock, p.next), d);
      PushEarned(c, r.queue, r.clock, r.log.work, Entry(p.clock + d.gap, r.stamp + 1, Arrival));
    case EpochTimer(_) => DispatchPaid(c, p, ByWindow, d.lock);
    case ServerDone(items, service) =>
      DepartPaid(c, Credit(c, Release(p), service), items, |items|, d.hops);
      RefillPaid(c, Depart(c, Credit(c, Release(p), service), items, |items|, d.hops), d);
    case ServerFailed(_) => RefillPaid(c, Release(p), d);
    case Deliver(id) => DeliverTouches(c, p, id);
    case Consume =>
      SampleTouches(c, p);
      PushEarned(c, p.queue, p.clock, p.log.work, Entry(p.clock + c.period, p.stamp + 1, Consume));
  }

  lemma {:induction false} RunIsPaid(c: Config, draws: nat -> Draws, n: nat)
    requires c.Ok() && Proper(draws)
    ensures Paid(c, Run(c, draws, n))
  {
    hide Step, Start, Orderly, Paid;
    if n == 0 {
      StartIsPaid(c, draws(0).gap);
    } else {
      RunIsPaid(c, draws, n - 1);
      RunIsOrderly(c, draws, n - 1);
      if Live(c, Run(c, draws, n - 1)) {
        StepPaid(c, Run(c, draws, n - 1), draws(n));
      }
    }
  }

  lemma StartIsPaid(c: Config, gap: real)
    ensures Paid(c, Start(c, gap))
  {
    hide Insert, Earned;
    assert Earned(c, [], 0.0, 0.0) by { WorkOfNothing(c); }
    PushEarned(c, [], 0.0, 0.0, Entry(gap, 1, Arrival));
    PushEarned(c, Insert([], Entry(gap, 1, Arrival)), 0.0, 0.0, Entry(0.0, 2, Consume));
  }

  lemma WorkOfNothing(c: Config)
    ensures Earned(c, [], 0.0, 0.0)
  {
  }

  /** Work conservation: the workers cannot have completed more service than the time they had. */
  lemma WorkBound(c: Config, draws: nat -> Draws, n: nat)
    requires c.Ok() && Proper(draws)
    ensures var s := Run(c, draws, n); s.log.work <= c.workers as real * s.clock
  {
    hide Run, Elapsed;
    RunIsPaid(c, draws, n);
    ElapsedNonNegative(Run(c, draws, n).queue, Run(c, draws, n).clock);
  }

  /** The busy time counts the service completed inside the measurement window; with no warm-up, all of it. */
  ghost predicate Counted(c: Config, s: State) {
    && 0.0 <= s.stats.busyTime <= s.log.work
    && 0.0 <= s.clock
    && (c.measureFrom <= 0.0 ==> s.stats.busyTime == s.log.work)
    && (s.clock <= c.end || s.clock == 0.0 == s.log.work)
  }

  lemma StepCounted(c: Config, s: State, d: Draws)
    requires c.Ok() && Orderly(c, s) && Paid(c, s) && Counted(c, s) && Live(c, s)
    ensures Counted(c, Step(c, s, d))
  {
    hide Insert, Place, Refill, Depart, Dispatch, Sample, OnDeliver, Elapsed, Closed, Sorted;
    var p := Pop(s);
    assert s.queue[0] in s.queue;
    match s.queue[0].event
    case Arrival =>
      PlaceTouches(c, Capture(c, p), Frame(p.clock, p.next), d);
      PlaceBusyTime(c, Capture(c, p), Frame(p.clock, p.next), d);
    case EpochTimer(_) => DispatchTouches(c, p, p.clock, ByWindow, d.lock);
    case ServerDone(items, service) =>
      var departed := Depart(c, Credit(c, Release(p), service), items, |items|, d.hops);
      DepartTouches(c, Credit(c, Release(p), service), items, |items|, d.hops);
      RefillTouches(c, departed, d);
      RefillBusyTime(c, departed, d);
    case ServerFailed(_) =>
      RefillTouches(c, Release(p), d);
      RefillBusyTime(c, Release(p), d);
    case Deliver(id) => DeliverTouches(c, p, id);
    case Consume => SampleTouches(c, p);
  }

  lemma PlaceBusyTime(c: Config, s: State, frame: Frame, d: Draws)
    ensures Place(c, s, frame, d).stats.busyTime == s.stats.busyTime
  {
    hide StartEpoch, Dispatch;
    var open := if s.epoch == [] then StartEpoch(c, s, s.clock) else s;
    StartEpochTouches(c, s, s.clock);
    DispatchTouches(c, open.(epoch := open.epoch + [frame]), s.clock, BySize, d.lock);
  }

  lemma RefillBusyTime(c: Config, s: State, d: Draws)
    ensures Refill(c, s, d).stats.busyTime == s.stats.busyTime
  {
    hide StartEpoch, Dispatch;
    StartEpochTouches(c, s, s.clock);
    DispatchTouches(c, Fill(c, StartEpoch(c, s, s.clock)), s.clock, BySize, d.lock);
    DispatchTouches(c, s, s.clock, BySize, d.lock);
  }

  lemma {:induction false} RunIsCounted(c: Config, draws: nat -> Draws, n: nat)
    requires c.Ok() && Proper(draws)
    ensures Counted(c, Run(c, draws, n))
  {
    hide Insert, Step, Orderly, Paid;
    if n > 0 {
      RunIsCounted(c, draws, n - 1);
      RunIsOrderly(c, draws, n - 1);
      RunIsPaid(c, draws, n - 1);
      if Live(c, Run(c, draws, n - 1)) {
        hide Counted;
        StepCounted(c, Run(c, draws, n - 1), draws(n));
      }
    }
  }

  function Capacity(c: Config): real {
    Max(0.000000001, (c.end - c.measureFrom) * c.workers as real)
  }

  /** `server_utilisation`. */
  function Utilisation(c: Config, s: State): real {
    if s.stats.busyTime != 0.0 then Clamp(s.stats.busyTime / Capacity(c), 0.0, 1.0) else 0.0
  }

  /** Without warm-up the clamp is the identity: the utilisation is the fraction of the workers' time spent serving. */
  lemma UtilisationIsExact(c: Config, draws: nat -> Draws, n: nat)
    requires c.Ok() && Proper(draws) && c.measureFrom == 0.0
    ensures var s := Run(c, draws, n);
            && Utilisation(c, s) == s.log.work / Capacity(c)
            && 0.0 <= Utilisation(c, s) <= 1.0
  {
    hide Run;
    var s := Run(c, draws, n);
    RunIsCounted(c, draws, n);
    WorkBound(c, draws, n);
    var w := c.workers as real;
    if s.clock <= c.end {
      ScaleUp(s.clock, c.end, w);
      assert w * s.clock <= (c.end - c.measureFrom) * w;
    }
    assert s.log.work <= Capacity(c);
    FractionInUnit(s.log.work, Capacity(c));
  }

  lemma ScaleUp(a: real, b: real, x: real)
    requires a <= b && x >= 0.0
    ensures a * x <= b * x
  {
    assert (b - a) * x >= 0.0;
  }

  lemma FractionInUnit(a: real, b: real)
    requires 0.0 <= a <= b && b > 0.0
    ensures 0.0 <= a / b <= 1.0
  {
    ScaleUp(0.0, a / b, b);
    assert a / b * b == a;
  }
}
