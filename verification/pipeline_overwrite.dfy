/**
 Which configurations can lose a frame: exactly those with two workers or more, batches of two or
 more and an initial backlog, provided a run is long enough for one batch, of any size, to be
 reported back. The runs that lose a frame are explicit: one frame arrives just before the worker
 of the first batch reports back.
 */
module Overwrite {
  import opened Wrappers
  import opened Events
  import opened Pipeline
  import opened Discipline
  import opened Conservation
  import opened Fifo
  import opened Termination

  /** A first batch: its size, how long its first frame waits for it to be closed, and the lock drawn then. */
  datatype Plan = Plan(size: nat, wait: real, lock: real)

  /** What the batch dies of, if anything. */
  function PlanVerdict(c: Config, p: Plan): Option<Mechanism> {
    Failure(c, p.wait + LockWait(c, p.lock) + ServiceTime(c, p.size), LockWait(c, p.lock))
  }

  /** How long after its first frame the batch is reported back. */
  function ReportTime(c: Config, p: Plan): real {
    p.wait + if PlanVerdict(c, p).Some? then 0.0 else ServiceTime(c, p.size)
  }

  /**
   A batch that is not full is closed by its window, and a full one by its last frame, before the
   window is over. A full batch that is reported back at once leaves no time for another frame.
   */
  predicate Feasible(c: Config, p: Plan) {
    && 1 <= p.size <= c.maxBatch && 0.0 <= p.lock < 1.0
    && (p.size < c.maxBatch ==> p.wait == c.window && (p.size > 1 ==> c.window > 0.0))
    && (p.size == c.maxBatch ==> 0.0 < p.wait < c.window && PlanVerdict(c, p).None? && ServiceTime(c, p.size) > 0.0)
  }

  /** The gaps between the frames of the batch; a full one waits for its last frame. */
  function Spread(c: Config, p: Plan): real {
    if p.size <= 1 then ReportTime(c, p)
    else if p.size == c.maxBatch then p.wait / (p.size - 1) as real
    else p.wait / p.size as real
  }

  /** How long before the report the next frame arrives. */
  function Lead(c: Config, p: Plan): real {
    if p.size == c.maxBatch then Min(c.window, ServiceTime(c, p.size)) / 2.0 else 0.0
  }

  /** When the `k`-th frame arrives, counted from the first: the last one after the batch. */
  function Arrives(c: Config, p: Plan, k: nat): real {
    if k < p.size then k as real * Spread(c, p) else ReportTime(c, p) - Lead(c, p)
  }

  /** The gap drawn when a frame arrives. */
  function Gap(c: Config, p: Plan, id: nat): real {
    if c.backlog <= id < c.backlog + p.size then Arrives(c, p, id - c.backlog + 1) - Arrives(c, p, id - c.backlog) else ReportTime(c, p)
  }

  function DrawAt(c: Config, p: Plan, id: nat): Draws {
    Draws(Gap(c, p, id), p.lock, (k: nat) => Hop(0.0, 0.0))
  }

  /** The run in which the gaps are paced by the frames that arrive. */
  function Drive(c: Config, p: Plan, first: real, n: nat): State {
    if n == 0 then Start(c, first)
    else
      var s := Drive(c, p, first, n - 1);
      if Live(c, s) then Step(c, s, DrawAt(c, p, s.next)) else s
  }

  /** ... as draws. */
  function Paced(c: Config, p: Plan, first: real): nat -> Draws {
    (n: nat) => if n == 0 then DrawAt(c, p, 0).(gap := first) else DrawAt(c, p, Drive(c, p, first, n - 1).next)
  }

  lemma {:induction false} PacedIsDriven(c: Config, p: Plan, first: real, n: nat)
    ensures Run(c, Paced(c, p, first), n) == Drive(c, p, first, n)
  {
    hide Step, Start, DrawAt, Live;
    if n > 0 {
      PacedIsDriven(c, p, first, n - 1);
    }
  }

  // --- the pace ------------------------------------------------------------------------

  lemma Share(x: real, n: nat, k: nat)
    requires x >= 0.0 && n >= 1 && k <= n
    ensures 0.0 <= k as real * (x / n as real) <= x && (x > 0.0 && k < n ==> k as real * (x / n as real) < x)
    ensures x > 0.0 ==> x / n as real > 0.0
    ensures n as real * (x / n as real) == x
  {
    var share := x / n as real;
    assert n as real * share == x;
    assert share >= 0.0;
    Grows(share, k, n);
  }

  lemma Grows(share: real, k: nat, n: nat)
    requires share >= 0.0 && k <= n
    ensures 0.0 <= k as real * share <= n as real * share && (share > 0.0 && k < n ==> k as real * share < n as real * share)
  {
    assert n as real * share == k as real * share + (n - k) as real * share;
  }

  /** While the batch gathers, frames arrive before its window is over and before it is reported. */
  lemma WithinWindow(c: Config, p: Plan, k: nat)
    requires c.Ok() && Feasible(c, p) && k < p.size
    ensures 0.0 <= Arrives(c, p, k) <= p.wait <= ReportTime(c, p)
    ensures Arrives(c, p, 0) == 0.0
    ensures k >= 1 ==> Arrives(c, p, k) < c.window
    ensures p.size == c.maxBatch && c.maxBatch >= 2 ==> Arrives(c, p, p.size - 1) == p.wait
  {
    hide ServiceTime, PlanVerdict;
    ServiceIsNonNegative(c, p.size);
    if p.size >= 2 {
      if p.size == c.maxBatch {
        Share(p.wait, p.size - 1, k);
      } else {
        Share(p.wait, p.size, k);
      }
    } else {
      assert k == 0;
    }
  }

  lemma LeadIsShort(c: Config, p: Plan)
    requires c.Ok() && Feasible(c, p)
    ensures 0.0 <= Lead(c, p) <= ReportTime(c, p) - p.wait && (p.size < c.maxBatch ==> Lead(c, p) == 0.0)
    ensures p.size == c.maxBatch ==> 0.0 < Lead(c, p) < c.window && Lead(c, p) < ReportTime(c, p) - p.wait
  {
    hide ServiceTime, Failure;
    ServiceIsNonNegative(c, p.size);
  }

  lemma OneMore(k: nat, share: real)
    ensures (k + 1) as real * share == k as real * share + share
  {
  }

  /** Gaps are not negative, and positive if the report takes any time. */
  lemma GapsArePositive(c: Config, p: Plan, id: nat)
    requires c.Ok() && Feasible(c, p) && c.maxBatch >= 2
    ensures Gap(c, p, id) >= 0.0 && (ReportTime(c, p) > 0.0 ==> Gap(c, p, id) > 0.0)
  {
    hide PlanVerdict, ServiceTime, Lead, ReportTime;
    WithinWindow(c, p, 0);
    LeadIsShort(c, p);
    if c.backlog <= id < c.backlog + p.size {
      var k := id - c.backlog;
      OneMore(k, Spread(c, p));
      WithinWindow(c, p, p.size - 1);
      if p.size >= 2 {
        SpreadIsPositive(c, p);
        if p.size < c.maxBatch {
          BeforeTheWait(c, p);
        }
      }
    }
  }

  lemma SpreadIsPositive(c: Config, p: Plan)
    requires c.Ok() && Feasible(c, p) && p.size >= 2
    ensures Spread(c, p) > 0.0
  {
    hide PlanVerdict, ServiceTime;
    if p.size == c.maxBatch {
      Share(p.wait, p.size - 1, 0);
    } else {
      Share(p.wait, p.size, 0);
    }
  }

  lemma BeforeTheWait(c: Config, p: Plan)
    requires c.Ok() && Feasible(c, p) && 2 <= p.size < c.maxBatch
    ensures Arrives(c, p, p.size - 1) < p.wait
  {
    hide PlanVerdict, ServiceTime;
    Share(p.wait, p.size, p.size - 1);
  }

  // --- consumer ticks in between ------------------------------------------------------

  /** The outstanding entries other than consumer ticks. */
  ghost predicate Others(q: seq<Entry>, others: set<Entry>) {
    forall e :: e in q && !e.event.Consume? <==> e in others
  }

  /** Nothing has happened but time. */
  ghost predicate Idle(s: State, t: State) {
    t == s.(clock := t.clock, queue := t.queue, stamp := t.stamp) && s.stamp <= t.stamp
  }

  lemma TickIsIdle(c: Config, s: State, d: Draws, others: set<Entry>)
    requires Live(c, s) && s.queue[0].event.Consume? && s.buffer == [] && Others(s.queue, others)
    ensures Idle(s, Step(c, s, d)) && Others(Step(c, s, d).queue, others)
  {
    hide Insert;
    var p := Pop(s);
    var tick := Entry(p.clock + c.period, p.stamp + 1, Consume);
    InsertMembers(p.queue, tick);
    assert s.queue == [s.queue[0]] + s.queue[1..];
  }

  ghost predicate Reaches(c: Config, draws: nat -> Draws, n: nat, m: nat, others: set<Entry>) {
    && n <= m && Idle(Run(c, draws, n), Run(c, draws, m)) && Others(Run(c, draws, m).queue, others)
    && Live(c, Run(c, draws, m)) && !Run(c, draws, m).queue[0].event.Consume?
  }

  lemma LiveWhileOutstanding(c: Config, s: State, e: Entry)
    requires Orderly(c, s) && e in s.queue && e.time <= c.end
    ensures Live(c, s)
  {
    var i :| 0 <= i < |s.queue| && s.queue[i] == e;
    assert i > 0 ==> Before(s.queue[0], s.queue[i]);
  }

  /** Ticks come to an end: some later state is the same but for the clock, and its next event is not a tick. */
  lemma {:induction false} TicksPass(c: Config, draws: nat -> Draws, n: nat, others: set<Entry>, e: Entry) returns (m: nat)
    requires c.Ok() && Proper(draws) && Run(c, draws, n).buffer == [] && Others(Run(c, draws, n).queue, others)
    requires e in others && !e.event.Consume? && e.time <= c.end
    ensures Reaches(c, draws, n, m, others)
    decreases Potential(c, 1.0, Run(c, draws, n))
  {
    hide Run, Step, Potential, Orderly;
    var s := Run(c, draws, n);
    RunIsOrderly(c, draws, n);
    LiveWhileOutstanding(c, s, e);
    if s.queue[0].event.Consume? {
      OneMoreStep(c, draws, n);
      TickIsIdle(c, s, draws(n + 1), others);
      StepFalls(c, 1.0, s, draws(n + 1));
      PotentialIsNonNegative(c, 1.0, Run(c, draws, n + 1));
      m := TicksPass(c, draws, n + 1, others, e);
    } else {
      m := n;
    }
  }

  lemma OneMoreStep(c: Config, draws: nat -> Draws, n: nat)
    requires Live(c, Run(c, draws, n))
    ensures Run(c, draws, n + 1) == Step(c, Run(c, draws, n), draws(n + 1))
  {
  }

  /** Of the entries that are not ticks, the earliest comes next. */
  lemma EarliestIsNext(c: Config, s: State, others: set<Entry>, e: Entry)
    requires Orderly(c, s) && Live(c, s) && !s.queue[0].event.Consume? && Others(s.queue, others)
    requires e in others && forall x :: x in others && x != e ==> Before(e, x)
    ensures s.queue[0] == e
  {
    var i :| 0 <= i < |s.queue| && s.queue[i] == e;
    assert s.queue[0] in s.queue && s.queue[0] in others;
    assert i > 0 ==> Before(s.queue[0], s.queue[i]);
  }

  /** Ticks, and then `e`. */
  lemma UntilNext(c: Config, draws: nat -> Draws, n: nat, others: set<Entry>, e: Entry) returns (m: nat)
    requires c.Ok() && Proper(draws) && Run(c, draws, n).buffer == [] && Others(Run(c, draws, n).queue, others)
    requires e in others && !e.event.Consume? && e.time <= c.end && forall x :: x in others && x != e ==> Before(e, x)
    ensures Idle(Run(c, draws, n), Run(c, draws, m)) && Others(Run(c, draws, m).queue, others)
    ensures Live(c, Run(c, draws, m)) && Run(c, draws, m).queue[0] == e
    ensures forall x :: x in others ==> x.stamp <= Run(c, draws, m).stamp
  {
    hide Run, Orderly;
    m := TicksPass(c, draws, n, others, e);
    RunIsOrderly(c, draws, m);
    EarliestIsNext(c, Run(c, draws, m), others, e);
    StampsAreOld(c, Run(c, draws, m));
  }

  lemma StampsAreOld(c: Config, s: State)
    requires Orderly(c, s)
    ensures forall x :: x in s.queue ==> x.stamp <= s.stamp
  {
  }

  // --- scenes ----------------------------------------------------------------------------

  /** The part of the state that decides what happens next. */
  datatype Scene = Scene(pending: seq<Frame>, epoch: seq<Frame>, busy: int, generation: nat, next: nat, others: set<Entry>)

  ghost predicate At(s: State, v: Scene) {
    && s.pending == v.pending && s.epoch == v.epoch && s.busy == v.busy && s.generation == v.generation && s.next == v.next
    && s.buffer == [] && Others(s.queue, v.others) && (s.epoch != [] ==> s.deadline.Some?)
  }

  lemma IdleIsAt(s: State, t: State, v: Scene)
    requires At(s, v) && Idle(s, t) && Others(t.queue, v.others)
    ensures At(t, v)
  {
  }

  lemma OthersAfterPush(q: seq<Entry>, others: set<Entry>, e: Entry)
    requires Others(q, others) && !e.event.Consume?
    ensures Others(Insert(q, e), others + {e})
  {
    hide Insert;
    InsertMembers(q, e);
  }

  lemma OthersAfterPop(q: seq<Entry>, others: set<Entry>)
    requires q != [] && Sorted(q) && Others(q, others) && !q[0].event.Consume?
    ensures Others(q[1..], others - {q[0]})
  {
    assert q == [q[0]] + q[1..];
    forall e | e in q[1..]
      ensures e != q[0]
    {
      var i :| 0 <= i < |q[1..]| && q[1..][i] == e;
      assert Before(q[0], q[i + 1]);
    }
  }

  lemma QueueIsSorted(c: Config, s: State)
    requires Orderly(c, s)
    ensures Sorted(s.queue)
  {
  }

  lemma SortedAt(c: Config, draws: nat -> Draws, n: nat)
    requires c.Ok() && Proper(draws)
    ensures Sorted(Run(c, draws, n).queue)
  {
    RunIsOrderly(c, draws, n);
    QueueIsSorted(c, Run(c, draws, n));
  }

  /** The next event draws the gap of the next frame. */
  lemma PacedStep(c: Config, p: Plan, first: real, n: nat, v: Scene)
    requires Live(c, Run(c, Paced(c, p, first), n)) && At(Run(c, Paced(c, p, first), n), v)
    ensures Run(c, Paced(c, p, first), n + 1) == Step(c, Run(c, Paced(c, p, first), n), DrawAt(c, p, v.next))
  {
    hide Step, Start, DrawAt, Live;
    PacedIsDriven(c, p, first, n);
    PacedIsDriven(c, p, first, n + 1);
  }

  /** Ticks, and then `e`. */
  lemma Advance(c: Config, draws: nat -> Draws, n: nat, v: Scene, e: Entry) returns (m: nat)
    requires c.Ok() && Proper(draws) && At(Run(c, draws, n), v)
    requires e in v.others && !e.event.Consume? && e.time <= c.end && forall x :: x in v.others && x != e ==> Before(e, x)
    ensures At(Run(c, draws, m), v) && Sorted(Run(c, draws, m).queue)
    ensures Live(c, Run(c, draws, m)) && Run(c, draws, m).queue[0] == e
    ensures forall x :: x in v.others ==> x.stamp <= Run(c, draws, m).stamp
  {
    hide Run, Orderly, Others, Idle, Sorted;
    m := UntilNext(c, draws, n, v.others, e);
    IdleIsAt(Run(c, draws, n), Run(c, draws, m), v);
    SortedAt(c, draws, m);
  }

  /** The timer of an epoch that is over. */
  lemma StaleTimer(c: Config, s: State, d: Draws, v: Scene)
    requires Sorted(s.queue) && Live(c, s) && At(s, v) && s.queue[0].event.EpochTimer?
    requires v.epoch == [] || s.queue[0].event.generation != v.generation
    ensures At(Step(c, s, d), v.(others := v.others - {s.queue[0]}))
  {
    hide Others;
    OthersAfterPop(s.queue, v.others);
  }

  function Left(stale: Option<Entry>): set<Entry> {
    if stale.Some? then {stale.value} else {}
  }

  /** Such a timer may run out before `e`; nothing else does. */
  lemma Reach(c: Config, draws: nat -> Draws, n: nat, v: Scene, stale: Option<Entry>, e: Entry) returns (m: nat, left: Option<Entry>)
    requires c.Ok() && Proper(draws) && At(Run(c, draws, n), v.(others := v.others + Left(stale)))
    requires e in v.others && !e.event.Consume? && e.time <= c.end && forall x :: x in v.others && x != e ==> Before(e, x)
    requires stale.Some? ==>
      && stale.value !in v.others && stale.value.stamp < e.stamp && stale.value.event.EpochTimer?
      && (v.epoch == [] || stale.value.event.generation != v.generation)
    ensures left == stale || left == None
    ensures At(Run(c, draws, m), v.(others := v.others + Left(left))) && Sorted(Run(c, draws, m).queue)
    ensures Live(c, Run(c, draws, m)) && Run(c, draws, m).queue[0] == e
    ensures forall x :: x in v.others + Left(left) ==> x.stamp <= Run(c, draws, m).stamp
  {
    hide Run, At, Step, Live, Sorted;
    left := stale;
    var at := n;
    if stale.Some? && Before(stale.value, e) {
      var w := v.(others := v.others + Left(stale));
      var k := Advance(c, draws, n, w, stale.value);
      StaleTimer(c, Run(c, draws, k), draws(k + 1), w);
      OneMoreStep(c, draws, k);
      left, at := None, k + 1;
      assert v.others + Left(stale) - {stale.value} == v.others + Left(None);
    }
    m := Advance(c, draws, at, v.(others := v.others + Left(left)), e);
  }

  // --- the events ------------------------------------------------------------------------------

  function Timer(c: Config, s: State, generation: nat): Entry
    requires s.queue != []
  {
    Entry(s.queue[0].time + c.window, s.stamp + 1, EpochTimer(generation))
  }

  /** A frame arrives and opens an epoch. */
  lemma ArrivalOpens(c: Config, s: State, d: Draws, v: Scene)
    requires c.Ok() && c.maxBatch >= 2 && v.busy < c.workers && Sorted(s.queue)
    requires Live(c, s) && s.queue[0].event.Arrival? && At(s, v) && v.epoch == []
    ensures var now := s.queue[0].time;
            At(Step(c, s, d), v.(epoch := [Frame(now, v.next)], generation := v.generation + 1, next := v.next + 1,
               others := v.others - {s.queue[0]} + {Timer(c, s, v.generation + 1), Entry(now + d.gap, s.stamp + 2, Arrival)}))
  {
    hide Insert, Others, Sorted;
    var now := s.queue[0].time;
    OthersAfterPop(s.queue, v.others);
    var rest, timer, next := v.others - {s.queue[0]}, Timer(c, s, v.generation + 1), Entry(now + d.gap, s.stamp + 2, Arrival);
    OthersAfterPush(s.queue[1..], rest, timer);
    OthersAfterPush(Insert(s.queue[1..], timer), rest + {timer}, next);
    assert rest + {timer} + {next} == rest + {timer, next};
    assert [] + [Frame(now, s.next)] == [Frame(now, s.next)];
  }

  /** A frame arrives and joins the epoch, which has room for more. */
  lemma ArrivalJoins(c: Config, s: State, d: Draws, v: Scene)
    requires v.busy < c.workers && Sorted(s.queue)
    requires Live(c, s) && s.queue[0].event.Arrival? && At(s, v) && v.epoch != [] && |v.epoch| + 1 < c.maxBatch
    ensures var now := s.queue[0].time;
            At(Step(c, s, d), v.(epoch := v.epoch + [Frame(now, v.next)], next := v.next + 1,
               others := v.others - {s.queue[0]} + {Entry(now + d.gap, s.stamp + 1, Arrival)}))
  {
    hide Insert, Others, Sorted, Dispatch, StartEpoch;
    OthersAfterPop(s.queue, v.others);
    OthersAfterPush(s.queue[1..], v.others - {s.queue[0]}, Entry(s.queue[0].time + d.gap, s.stamp + 1, Arrival));
  }

  /** The report of a batch that is closed at `now`. */
  function Report(c: Config, verdict: Option<Mechanism>, now: real, stamp: nat, items: seq<Frame>): Entry {
    if verdict.Some? then Entry(now, stamp, ServerFailed(items))
    else Entry(now + ServiceTime(c, |items|), stamp, ServerDone(items, ServiceTime(c, |items|)))
  }

  /** A dispatch empties the epoch, takes a worker and schedules the report. */
  lemma DispatchReports(c: Config, s: State, reason: Reason, lock: real)
    requires s.epoch != [] && s.busy < c.workers
    ensures var t, report := Dispatch(c, s, s.clock, reason, lock), Report(c, Verdict(c, s, s.clock, lock), s.clock, s.stamp + 1, s.epoch);
            && t.pending == s.pending && t.epoch == [] && t.busy == s.busy + 1 && t.generation == s.generation && t.next == s.next
            && t.buffer == s.buffer && t.clock == s.clock && t.stamp == s.stamp + 1 && t.queue == Insert(s.queue, report)
  {
    hide Insert, Record, Board, ServiceTime, LockWait, Verdict, Count;
    var verdict := Verdict(c, s, s.clock, lock);
    var closed := Close(s, s.clock, reason, verdict);
    match verdict
    case Some(m) => assert Dispatch(c, s, s.clock, reason, lock) == Fail(closed, s.epoch, s.clock, m);
    case None =>
      assert Dispatch(c, s, s.clock, reason, lock)
          == Serve(closed, s.epoch, s.clock, reason, LockWait(c, lock), ServiceTime(c, |s.epoch|));
  }

  /** A frame arrives and fills the batch. */
  lemma ArrivalFills(c: Config, s: State, d: Draws, v: Scene)
    requires v.busy < c.workers && Sorted(s.queue)
    requires Live(c, s) && s.queue[0].event.Arrival? && At(s, v) && v.epoch != [] && |v.epoch| + 1 == c.maxBatch
    requires Failure(c, s.queue[0].time - v.epoch[0].capture + LockWait(c, d.lock) + ServiceTime(c, c.maxBatch), LockWait(c, d.lock)).None?
    ensures var now := s.queue[0].time;
            var report := Report(c, None, now, s.stamp + 1, v.epoch + [Frame(now, v.next)]);
            At(Step(c, s, d), v.(epoch := [], busy := v.busy + 1, next := v.next + 1,
               others := v.others - {s.queue[0]} + {report, Entry(now + d.gap, s.stamp + 2, Arrival)}))
  {
    hide Insert, Others, Sorted, Dispatch, StartEpoch, ServiceTime, LockWait, Failure;
    var now := s.queue[0].time;
    var rest, report, next := v.others - {s.queue[0]}, Report(c, None, now, s.stamp + 1, v.epoch + [Frame(now, v.next)]), Entry(now + d.gap, s.stamp + 2, Arrival);
    var joined := Capture(c, Pop(s)).(epoch := v.epoch + [Frame(now, v.next)]);
    DispatchReports(c, joined, BySize, d.lock);
    OthersAfterPop(s.queue, v.others);
    OthersAfterPush(s.queue[1..], rest, report);
    OthersAfterPush(Insert(s.queue[1..], report), rest + {report}, next);
    assert rest + {report} + {next} == rest + {report, next};
  }

  /** The window of an epoch closes. */
  lemma WindowCloses(c: Config, s: State, d: Draws, v: Scene)
    requires v.busy < c.workers && Sorted(s.queue) && v.epoch != []
    requires Live(c, s) && s.queue[0].event == EpochTimer(v.generation) && At(s, v)
    ensures var now := s.queue[0].time;
            var verdict := Failure(c, now - v.epoch[0].capture + LockWait(c, d.lock) + ServiceTime(c, |v.epoch|), LockWait(c, d.lock));
            At(Step(c, s, d), v.(epoch := [], busy := v.busy + 1,
               others := v.others - {s.queue[0]} + {Report(c, verdict, now, s.stamp + 1, v.epoch)}))
  {
    hide Insert, Others, Sorted, Dispatch, ServiceTime, LockWait, Failure;
    var report := Report(c, Verdict(c, Pop(s), s.queue[0].time, d.lock), s.queue[0].time, s.stamp + 1, v.epoch);
    DispatchReports(c, Pop(s), ByWindow, d.lock);
    OthersAfterPop(s.queue, v.others);
    OthersAfterPush(s.queue[1..], v.others - {s.queue[0]}, report);
  }

  lemma StartIsAt(c: Config, first: real)
    ensures At(Start(c, first), Scene(Backlog(c.backlog), [], 0, 0, c.backlog, {Entry(first, 1, Arrival)}))
  {
    hide Insert;
    var arrival, tick := Entry(first, 1, Arrival), Entry(0.0, 2, Consume);
    InsertMembers([], arrival);
    InsertMembers(Insert([], arrival), tick);
  }

  lemma LosesEpoch(c: Config, s: State, d: Draws, v: Scene)
    requires Live(c, s) && At(s, v) && v.pending != [] && v.epoch != [] && v.busy == 1
    requires s.queue[0].event.ServerDone? || s.queue[0].event.ServerFailed?
    ensures v.epoch[0].id in Step(c, s, d).log.vanished
  {
    hide Step;
    StepVanishes(c, s, d);
    assert Ids(v.epoch)[0] == v.epoch[0].id;
  }

  // --- the first batch gathers --------------------------------------------------------------------

  /** `k` frames have arrived and wait in the epoch, the last of them just now. */
  ghost predicate Gathered(c: Config, p: Plan, first: real, k: nat, v: Scene, timer: Entry, arrival: Entry) {
    && v.pending == Backlog(c.backlog) && |v.epoch| == k && v.busy == 0 && v.next == c.backlog + k
    && arrival.event.Arrival? && arrival.time == first + Arrives(c, p, k)
    && if k == 0 then v.generation == 0 && v.others == {arrival}
       else && v.generation == 1 && v.epoch[0].capture == first && v.others == {timer, arrival}
            && timer.event == EpochTimer(1) && timer.time == first + c.window && timer.stamp < arrival.stamp
  }

  /** The run that the draws stand for. */
  ghost predicate Losing(c: Config, p: Plan, first: real) {
    c.Ok() && c.workers >= 2 && c.maxBatch >= 2 && Feasible(c, p) && first >= 0.0 && first + ReportTime(c, p) <= c.end
  }

  lemma PacedIsProper(c: Config, p: Plan, first: real)
    requires Losing(c, p, first)
    ensures Proper(Paced(c, p, first)) && Unit(Paced(c, p, first))
    ensures first > 0.0 && ReportTime(c, p) > 0.0 ==> Positive(Paced(c, p, first))
  {
    hide Drive, Gap, ReportTime;
    var draws := Paced(c, p, first);
    forall n: nat
      ensures draws(n).gap >= 0.0 && (first > 0.0 && ReportTime(c, p) > 0.0 ==> draws(n).gap > 0.0)
    {
      if n > 0 {
        GapsArePositive(c, p, Drive(c, p, first, n - 1).next);
      }
    }
  }

  lemma {:induction false} Gather(c: Config, p: Plan, first: real, k: nat) returns (n: nat, v: Scene, timer: Entry, arrival: Entry)
    requires Losing(c, p, first) && k <= p.size && k < c.maxBatch
    ensures Gathered(c, p, first, k, v, timer, arrival) && At(Run(c, Paced(c, p, first), n), v)
  {
    hide Run, At, Step, Start, Arrives, Gap, Paced, ReportTime, Feasible, Sorted;
    var draws := Paced(c, p, first);
    PacedIsProper(c, p, first);
    if k == 0 {
      WithinWindow(c, p, 0) by { assert 0 < p.size by { SizeIsPositive(c, p); } }
      StartIsAt(c, first);
      FirstState(c, p, first);
      n, arrival := 0, Entry(first, 1, Arrival);
      v, timer := Scene(Backlog(c.backlog), [], 0, 0, c.backlog, {arrival}), arrival;
    } else {
      var m, w, due, next := Gather(c, p, first, k - 1);
      WithinWindow(c, p, k - 1);
      var at := Advance(c, draws, m, w, next);
      var s := Run(c, draws, at);
      PacedStep(c, p, first, at, w);
      var d := DrawAt(c, p, w.next);
      NextArrives(c, p, k - 1);
      if k == 1 {
        ArrivalOpens(c, s, d, w);
        timer, arrival := Timer(c, s, 1), Entry(next.time + d.gap, s.stamp + 2, Arrival);
        v := w.(epoch := [Frame(next.time, w.next)], generation := 1, next := w.next + 1, others := {timer, arrival});
        assert {next} - {next} + {timer, arrival} == {timer, arrival};
      } else {
        ArrivalJoins(c, s, d, w);
        timer, arrival := due, Entry(next.time + d.gap, s.stamp + 1, Arrival);
        v := w.(epoch := w.epoch + [Frame(next.time, w.next)], next := w.next + 1, others := {timer, arrival});
        assert {due, next} - {next} + {arrival} == {due, arrival};
      }
      n := at + 1;
    }
  }

  lemma SizeIsPositive(c: Config, p: Plan)
    requires Feasible(c, p)
    ensures 1 <= p.size <= c.maxBatch
  {
  }

  lemma NextArrives(c: Config, p: Plan, k: nat)
    requires k < p.size
    ensures Arrives(c, p, k) + DrawAt(c, p, c.backlog + k).gap == Arrives(c, p, k + 1)
  {
    hide Arrives;
  }

  lemma FirstState(c: Config, p: Plan, first: real)
    ensures Run(c, Paced(c, p, first), 0) == Start(c, first)
  {
  }

  // --- ... and is closed ------------------------------------------------------------------------------

  /** The first batch has a worker, which reports back just after the next frame arrives. */
  ghost predicate Closing(c: Config, p: Plan, first: real, v: Scene, arrival: Entry, report: Entry, stale: Option<Entry>) {
    && v.pending == Backlog(c.backlog) && v.epoch == [] && v.busy == 1 && v.generation == 1 && v.next == c.backlog + p.size
    && v.others == {arrival, report} && arrival.event.Arrival? && (report.event.ServerDone? || report.event.ServerFailed?)
    && arrival.time == first + ReportTime(c, p) - Lead(c, p) && report.time == first + ReportTime(c, p) && Before(arrival, report)
    && (stale.Some? ==> stale.value.event == EpochTimer(1) && stale.value.stamp < arrival.stamp && stale.value.stamp < report.stamp)
  }

  /** A batch that is not full. */
  lemma ClosedByWindow(c: Config, p: Plan, first: real) returns (n: nat, v: Scene, arrival: Entry, report: Entry)
    requires Losing(c, p, first) && p.size < c.maxBatch
    ensures Closing(c, p, first, v, arrival, report, None) && At(Run(c, Paced(c, p, first), n), v)
  {
    hide Run, At, Step, Arrives, Gap, Paced, ReportTime, Sorted, PlanVerdict;
    var draws := Paced(c, p, first);
    PacedIsProper(c, p, first);
    var m, w, timer, next := Gather(c, p, first, p.size);
    LastArrives(c, p);
    WithinWindow(c, p, 0);
    var at := Advance(c, draws, m, w, timer);
    var s := Run(c, draws, at);
    PacedStep(c, p, first, at, w);
    WindowCloses(c, s, DrawAt(c, p, w.next), w);
    arrival, report := next, Report(c, PlanVerdict(c, p), timer.time, s.stamp + 1, w.epoch);
    PlanIsMet(c, p, timer.time - w.epoch[0].capture, w.next);
    ReportIsDue(c, p, timer.time, s.stamp + 1, w.epoch);
    v := w.(epoch := [], busy := 1, others := {arrival, report});
    assert {timer, next} - {timer} + {report} == {next, report};
    n := at + 1;
  }

  lemma LastArrives(c: Config, p: Plan)
    ensures Arrives(c, p, p.size) == ReportTime(c, p) - Lead(c, p)
  {
  }

  lemma PlanIsMet(c: Config, p: Plan, wait: real, id: nat)
    requires wait == p.wait
    ensures var d := DrawAt(c, p, id);
            Failure(c, wait + LockWait(c, d.lock) + ServiceTime(c, p.size), LockWait(c, d.lock)) == PlanVerdict(c, p)
  {
    hide Gap;
  }

  lemma ReportIsDue(c: Config, p: Plan, now: real, stamp: nat, items: seq<Frame>)
    requires |items| == p.size
    ensures var r := Report(c, PlanVerdict(c, p), now, stamp, items);
            && r.time == now - p.wait + ReportTime(c, p) && r.stamp == stamp && (r.event.ServerDone? || r.event.ServerFailed?)
  {
    hide PlanVerdict, ServiceTime;
  }

  /** A full batch; the timer of its epoch is still due. */
  lemma ClosedByLast(c: Config, p: Plan, first: real) returns (n: nat, v: Scene, arrival: Entry, report: Entry, stale: Entry)
    requires Losing(c, p, first) && p.size == c.maxBatch
    ensures Closing(c, p, first, v, arrival, report, Some(stale)) && At(Run(c, Paced(c, p, first), n), v.(others := v.others + {stale}))
    ensures stale !in v.others
  {
    hide Run, At, Step, Arrives, Gap, Paced, ReportTime, Sorted, PlanVerdict, ServiceTime, Lead;
    var draws := Paced(c, p, first);
    PacedIsProper(c, p, first);
    var m, w, timer, next := Gather(c, p, first, p.size - 1);
    WithinWindow(c, p, p.size - 1);
    LastArrives(c, p);
    LeadIsShort(c, p);
    var at := Advance(c, draws, m, w, next);
    var s := Run(c, draws, at);
    PacedStep(c, p, first, at, w);
    var d := DrawAt(c, p, w.next);
    NextArrives(c, p, p.size - 1);
    PlanIsMet(c, p, next.time - w.epoch[0].capture, w.next);
    ArrivalFills(c, s, d, w);
    var items := w.epoch + [Frame(next.time, w.next)];
    arrival, report, stale := Entry(next.time + d.gap, s.stamp + 2, Arrival), Report(c, None, next.time, s.stamp + 1, items), timer;
    ReportIsDue(c, p, next.time, s.stamp + 1, items);
    v := w.(epoch := [], busy := 1, next := w.next + 1, others := {arrival, report});
    assert {timer, next} - {next} + {report, arrival} == {arrival, report} + {timer};
    n := at + 1;
  }

  lemma FirstBatch(c: Config, p: Plan, first: real) returns (n: nat, v: Scene, arrival: Entry, report: Entry, stale: Option<Entry>)
    requires Losing(c, p, first)
    ensures Closing(c, p, first, v, arrival, report, stale) && At(Run(c, Paced(c, p, first), n), v.(others := v.others + Left(stale)))
    ensures stale.Some? ==> stale.value !in v.others
  {
    hide Run, At, Closing, Feasible, Paced;
    assert p.size <= c.maxBatch by { SizeIsPositive(c, p); }
    if p.size < c.maxBatch {
      stale := None;
      n, v, arrival, report := ClosedByWindow(c, p, first);
      assert v.others + Left(None) == v.others;
    } else {
      var timer: Entry;
      n, v, arrival, report, timer := ClosedByLast(c, p, first);
      stale := Some(timer);
    }
  }

  // --- the frame that is lost -----------------------------------------------------------------------------

  /** The run that loses a frame, the first one after the batch. */
  lemma FrameVanishes(c: Config, p: Plan, first: real) returns (n: nat)
    requires Losing(c, p, first) && c.backlog >= 1
    ensures Proper(Paced(c, p, first)) && Unit(Paced(c, p, first))
    ensures first > 0.0 && ReportTime(c, p) > 0.0 ==> Positive(Paced(c, p, first))
    ensures c.backlog + p.size in Run(c, Paced(c, p, first), n).log.vanished
  {
    hide Run, At, Step, Gap, Paced, ReportTime, Sorted, Lead, Feasible;
    var draws := Paced(c, p, first);
    PacedIsProper(c, p, first);
    LeadIsShort(c, p);
    WithinWindow(c, p, 0) by { SizeIsPositive(c, p); }
    var m, v, arrival, report, stale := FirstBatch(c, p, first);
    // the next frame opens an epoch for the second worker
    var n1, left := Reach(c, draws, m, v, stale, arrival);
    var s := Run(c, draws, n1);
    var d := DrawAt(c, p, v.next);
    PacedStep(c, p, first, n1, v.(others := v.others + Left(left)));
    ArrivalOpens(c, s, d, v.(others := v.others + Left(left)));
    var timer, next := Timer(c, s, 2), Entry(arrival.time + d.gap, s.stamp + 2, Arrival);
    var w := v.(epoch := [Frame(arrival.time, v.next)], generation := 2, next := v.next + 1, others := {report, timer, next});
    LaterGap(c, p);
    ReportIsNext(c, p, first, v, arrival, report, stale, timer, next);
    assert v.others + Left(left) - {arrival} + {timer, next} == w.others + Left(left);
    // the first worker reports back and the backlog's epoch overwrites it
    var n2, still := Reach(c, draws, n1 + 1, w, left, report);
    n := n2 + 1;
    LosesEpoch(c, Run(c, draws, n2), draws(n), w.(others := w.others + Left(still)));
    OneMoreStep(c, draws, n2);
  }

  /** The report comes before the second epoch's window closes and before the frame after that arrives. */
  lemma ReportIsNext(c: Config, p: Plan, first: real, v: Scene, arrival: Entry, report: Entry, stale: Option<Entry>, timer: Entry, next: Entry)
    requires Losing(c, p, first) && Closing(c, p, first, v, arrival, report, stale)
    requires timer.time == arrival.time + c.window && timer.stamp > report.stamp
    requires next.time == arrival.time + ReportTime(c, p) && next.stamp > report.stamp
    ensures Before(report, timer) && Before(report, next) && report.time <= c.end
  {
    hide ReportTime, Lead;
    LeadIsShort(c, p);
    WithinWindow(c, p, 0);
  }

  lemma LaterGap(c: Config, p: Plan)
    ensures DrawAt(c, p, c.backlog + p.size).gap == ReportTime(c, p)
  {
    hide ReportTime;
  }

  // --- which configurations lose frames -------------------------------------------------------

  ghost predicate Positive(draws: nat -> Draws) {
    forall n :: draws(n).gap > 0.0
  }

  /** Uniform deviates are at least zero and less than one. */
  ghost predicate Unit(draws: nat -> Draws) {
    && (forall n :: 0.0 <= draws(n).lock < 1.0)
    && (forall n, k :: 0.0 <= draws(n).hops(k).uniform < 1.0)
  }

  /** Draws that lose a frame; with gaps above zero unless the batch reports back at once. */
  ghost predicate Loses(c: Config, p: Plan, draws: nat -> Draws) {
    && Proper(draws) && Unit(draws) && (ReportTime(c, p) > 0.0 ==> Positive(draws))
    && exists n: nat :: Run(c, draws, n).log.vanished != []
  }

  /**
   If a run is long enough for some first batch to be reported back, some draws lose a frame exactly
   with two workers, batches of two and a backlog.
   */
  lemma WhoLosesFrames(c: Config, p: Plan)
    requires c.Ok() && (c.maxBatch >= 2 ==> Feasible(c, p) && c.end > ReportTime(c, p))
    ensures (exists draws :: Loses(c, p, draws)) <==> c.workers >= 2 && c.maxBatch >= 2 && c.backlog >= 1
  {
    hide Run, ReportTime, Feasible, Paced;
    if c.workers >= 2 && c.maxBatch >= 2 && c.backlog >= 1 {
      var first := c.end - ReportTime(c, p);
      var n := FrameVanishes(c, p, first);
      assert Loses(c, p, Paced(c, p, first));
    } else {
      forall draws | Proper(draws)
        ensures !Loses(c, p, draws)
      {
        forall n: nat
          ensures Run(c, draws, n).log.vanished == []
        {
          NothingVanishes(c, draws, n);
        }
      }
    }
  }

  // --- one such configuration ------------------------------------------------------------------

  /** One backlog frame, batches of two closed after 10 seconds, two workers, one second of service. */
  const TWO_WORKERS: Params := Params(
    1.0, 10000.0, 2.0, 2.0, 1000.0, 0.0, 0.0, 0.0, 0.0, 1.0, 10.0, 0.0,
    0.0, 0.0, 0.0, 0.0, 0.0, 0.0, 0.0, 0.0, 0.0)

  function Seconds(duration: real): Request { Request(duration, 0.0, None, None, false) }

  /** With these parameters and frames captured at 1 and at 12 seconds, the second one is lost. */
  lemma AFrameVanishes()
    ensures var c, p := Configure(TWO_WORKERS, Seconds(20.0)), Plan(1, 10.0, 0.0);
            && c.backlog == 1 && Gap(c, p, 1) == 11.0 && Positive(Paced(c, p, 1.0))
            && exists n: nat :: 2 in Run(c, Paced(c, p, 1.0), n).log.vanished
  {
    hide *;
    var c, p := Configure(TWO_WORKERS, Seconds(20.0)), Plan(1, 10.0, 0.0);
    TwoWorkers(20.0);
    OneFrame(c, p);
    var n := FrameVanishes(c, p, 1.0);
    assert c.backlog + p.size == 2;
  }

  lemma OneFrame(c: Config, p: Plan)
    requires Simple(c) && c.end == 20.0 && p == Plan(1, 10.0, 0.0)
    ensures Losing(c, p, 1.0) && Gap(c, p, 1) == 11.0 == ReportTime(c, p)
  {
    assert PlanVerdict(c, p) == None;
    assert 0 as real * Spread(c, p) == 0.0;
  }

  /** In five seconds a full batch is reported: of frames captured at 1, 1.5 and 2 seconds, the third one is lost. */
  lemma AThirdFrameVanishes()
    ensures var c, p := Configure(TWO_WORKERS, Seconds(5.0)), Plan(2, 0.5, 0.0);
            && c.backlog == 1 && Gap(c, p, 1) == 0.5 && Gap(c, p, 2) == 0.5 && Positive(Paced(c, p, 1.0))
            && exists n: nat :: 3 in Run(c, Paced(c, p, 1.0), n).log.vanished
  {
    hide *;
    var c, p := Configure(TWO_WORKERS, Seconds(5.0)), Plan(2, 0.5, 0.0);
    TwoWorkers(5.0);
    TwoFrames(c, p);
    var n := FrameVanishes(c, p, 1.0);
    assert c.backlog + p.size == 3;
  }

  lemma TwoFrames(c: Config, p: Plan)
    requires Simple(c) && c.end == 5.0 && p == Plan(2, 0.5, 0.0)
    ensures Losing(c, p, 1.0) && Gap(c, p, 1) == 0.5 && Gap(c, p, 2) == 0.5 && ReportTime(c, p) == 1.5
  {
    assert PlanVerdict(c, p) == None;
    assert Spread(c, p) == 0.5 && Lead(c, p) == 0.5;
    assert 0 as real * Spread(c, p) == 0.0 && 1 as real * Spread(c, p) == 0.5;
  }

  ghost predicate Simple(c: Config) {
    && c.Ok() && c.window == 10.0 && c.workers == 2 && c.maxBatch == 2 && c.backlog == 1
    && ServiceTime(c, 1) == 1.0 == ServiceTime(c, 2)
    && c.pressure == 0.0 && c.lockPatience == 0.0 && c.timeout == 0.0 && c.poolSize == 0.0
  }

  lemma TwoWorkers(duration: real)
    ensures var c := Configure(TWO_WORKERS, Seconds(duration)); Simple(c) && c.backlog == 1 && c.end == duration
  {
  }
}
