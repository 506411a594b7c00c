/**
 The link: what happens to every frame of a completed batch, told by its draws. A frame is lost or
 reaches the subscriber after its delay.
 */
module Transport {
  import opened Events
  import opened Pipeline
  import opened Effects
  import opened Conservation
  import opened Latency

  /** The frames that the draws lose, in the order of the batch. */
  function LostOf(c: Config, items: seq<Frame>, k: nat, hops: nat -> Hop): seq<nat>
    requires k <= |items|
  {
    if k == 0 then [] else LostOf(c, items, k - 1, hops) + if hops(k - 1).uniform < c.loss then [items[k - 1].id] else []
  }

  /** A frame is on the link for the normal deviate, or the mean when there is no spread, but never less than no time. */
  ghost predicate Delayed(c: Config, hop: Hop, delay: real) {
    var drawn := if c.sigma > 0.0 then hop.gauss else c.meanDelay;
    delay >= 0.0 && delay >= drawn && (delay == drawn || delay == 0.0)
  }

  /** The frame is due at the subscriber. */
  ghost predicate OnTheWay(c: Config, t: State, id: nat, hop: Hop, now: real) {
    && id in t.log.delays && Delayed(c, hop, t.log.delays[id])
    && exists e :: e in t.queue && e.event == Deliver(id) && e.time == now + t.log.delays[id]
  }

  /** What has become of the first `k` frames. */
  ghost predicate Sent(c: Config, s: State, t: State, items: seq<Frame>, k: nat, hops: nat -> Hop, now: real)
    requires k <= |items|
  {
    && t.log.lost == s.log.lost + LostOf(c, items, k, hops)
    && (forall i :: 0 <= i < k && !(hops(i).uniform < c.loss) ==> OnTheWay(c, t, items[i].id, hops(i), now))
    && (forall e :: e in t.queue && e.event.Deliver? ==> e in s.queue || exists i :: 0 <= i < k && !(hops(i).uniform < c.loss) && e.event.id == items[i].id)
  }

  ghost predicate DistinctFrames(items: seq<Frame>) {
    forall i, j :: 0 <= i < j < |items| ==> items[i].id != items[j].id
  }

  lemma LaunchKeepsOthers(c: Config, s: State, id: nat, delay: real, other: nat, hop: Hop)
    requires OnTheWay(c, s, other, hop, s.clock) && other != id
    ensures OnTheWay(c, Launch(s, id, delay), other, hop, s.clock)
  {
    hide Insert, Delayed;
    InsertMembers(s.queue, Entry(s.clock + delay, s.stamp + 1, Deliver(id)));
    var e :| e in s.queue && e.event == Deliver(other) && e.time == s.clock + s.log.delays[other];
    assert e in Launch(s, id, delay).queue;
  }

  lemma LaunchIsOnTheWay(c: Config, s: State, id: nat, hop: Hop)
    ensures var t := Launch(s, id, Delay(c, hop));
            && OnTheWay(c, t, id, hop, s.clock) && t.log.lost == s.log.lost
            && forall e :: e in t.queue && e.event.Deliver? ==> e in s.queue || e.event.id == id
  {
    hide Insert;
    var delay := Delay(c, hop);
    var e := Entry(s.clock + delay, s.stamp + 1, Deliver(id));
    InsertMembers(s.queue, e);
    assert e in Launch(s, id, delay).queue;
  }

  lemma LoseKeepsOthers(c: Config, s: State, id: nat, other: nat, hop: Hop, now: real)
    requires OnTheWay(c, s, other, hop, now)
    ensures OnTheWay(c, Lose(s, id), other, hop, now)
  {
    hide Delayed;
    var e :| e in s.queue && e.event == Deliver(other) && e.time == now + s.log.delays[other];
    assert e in Lose(s, id).queue;
  }

  lemma {:induction false} DepartSends(c: Config, s: State, items: seq<Frame>, k: nat, hops: nat -> Hop)
    requires k <= |items| && DistinctFrames(items)
    ensures Sent(c, s, Depart(c, s, items, k, hops), items, k, hops, s.clock)
  {
    hide Launch, Lose, OnTheWay, Delay;
    if k > 0 {
      var t, id := Depart(c, s, items, k - 1, hops), items[k - 1].id;
      DepartSends(c, s, items, k - 1, hops);
      DepartTouches(c, s, items, k - 1, hops);
      var r := Depart(c, s, items, k, hops);
      forall i | 0 <= i < k - 1 && !(hops(i).uniform < c.loss)
        ensures OnTheWay(c, r, items[i].id, hops(i), s.clock)
      {
        LoseKeepsOthers(c, t, id, items[i].id, hops(i), s.clock);
        LaunchKeepsOthers(c, t, id, Delay(c, hops(k - 1)), items[i].id, hops(i));
      }
      LaunchIsOnTheWay(c, t, id, hops(k - 1));
      LoseLoses(t, id);
    }
  }

  lemma LoseLoses(s: State, id: nat)
    ensures Lose(s, id).log.lost == s.log.lost + [id] && Lose(s, id).queue == s.queue
  {
  }

  /** Nothing after the loop touches the link. */
  lemma RefillKeepsLink(c: Config, s: State, d: Draws)
    ensures var t := Refill(c, s, d);
            t.log.lost == s.log.lost && t.log.delays == s.log.delays && forall e: Entry :: e.event.Deliver? ==> (e in t.queue <==> e in s.queue)
  {
    hide StartEpoch, Dispatch;
    RefillTouches(c, s, d);
    var open := StartEpoch(c, s, s.clock);
    StartEpochKeepsLink(c, s);
    DispatchKeepsLink(c, Fill(c, open), d.lock);
    DispatchKeepsLink(c, s, d.lock);
  }

  lemma StartEpochKeepsLink(c: Config, s: State)
    ensures var t := StartEpoch(c, s, s.clock); t.clock == s.clock && forall e: Entry :: e.event.Deliver? ==> (e in t.queue <==> e in s.queue)
  {
    hide Insert;
    var due := if c.window > 0.0 then s.clock + c.window else s.clock;
    InsertMembers(s.queue, Entry(due, s.stamp + 1, EpochTimer(s.generation + 1)));
  }

  lemma DispatchKeepsLink(c: Config, s: State, lock: real)
    ensures var t := Dispatch(c, s, s.clock, BySize, lock); forall e: Entry :: e.event.Deliver? ==> (e in t.queue <==> e in s.queue)
  {
    hide Insert, Record, Board, ServiceTime, LockWait, Verdict, Count, Ids;
    if s.epoch != [] && s.busy < c.workers {
      InsertMembers(s.queue, Entry(s.clock, s.stamp + 1, ServerFailed(s.epoch)));
      InsertMembers(s.queue, Entry(s.clock + ServiceTime(c, |s.epoch|), s.stamp + 1, ServerDone(s.epoch, ServiceTime(c, |s.epoch|))));
    }
  }

  lemma SentAlike(c: Config, s: State, t: State, u: State, items: seq<Frame>, hops: nat -> Hop, now: real)
    requires Sent(c, s, t, items, |items|, hops, now)
    requires u.log.lost == t.log.lost && u.log.delays == t.log.delays
    requires forall e: Entry :: e.event.Deliver? ==> (e in u.queue <==> e in t.queue)
    ensures Sent(c, s, u, items, |items|, hops, now)
  {
    hide Delayed, LostOf;
    forall i | 0 <= i < |items| && !(hops(i).uniform < c.loss)
      ensures OnTheWay(c, u, items[i].id, hops(i), now)
    {
      assert OnTheWay(c, t, items[i].id, hops(i), now);
      var e :| e in t.queue && e.event == Deliver(items[i].id) && e.time == now + t.log.delays[items[i].id];
      assert e in u.queue;
    }
  }

  /** A completed batch: the frames that the draws lose are lost, and every other one is due after its delay. */
  lemma CompletionSends(c: Config, s: State, d: Draws)
    requires Live(c, s) && s.queue[0].event.ServerDone? && DistinctFrames(s.queue[0].event.items)
    ensures var items := s.queue[0].event.items;
            Sent(c, Pop(s), Step(c, s, d), items, |items|, d.hops, s.queue[0].time)
  {
    hide Insert, Refill, Depart, Sent;
    var p, items := Pop(s), s.queue[0].event.items;
    var worked := Credit(c, Release(p), s.queue[0].event.service);
    var departed := Depart(c, worked, items, |items|, d.hops);
    DepartSends(c, worked, items, |items|, d.hops);
    RefillKeepsLink(c, departed, d);
    SentAlike(c, worked, departed, Refill(c, departed, d), items, d.hops, p.clock);
    SentFrom(c, p, worked, Step(c, s, d), items, d.hops, p.clock);
  }

  lemma SentFrom(c: Config, p: State, s: State, t: State, items: seq<Frame>, hops: nat -> Hop, now: real)
    requires Sent(c, s, t, items, |items|, hops, now) && p.log.lost == s.log.lost && p.queue == s.queue
    ensures Sent(c, p, t, items, |items|, hops, now)
  {
    hide OnTheWay, LostOf;
  }

  lemma BatchIsDistinct(s: State)
    requires Conserved(s) && s.queue != [] && s.queue[0].event.ServerDone?
    ensures DistinctFrames(s.queue[0].event.items)
  {
    hide Insert, Total;
    var items := s.queue[0].event.items;
    forall i, j | 0 <= i < j < |items|
      ensures items[i].id != items[j].id
    {
      var id := items[i].id;
      if id == items[j].id {
        TwiceIn(Ids(items), i, j);
        PopPlaces(s, id);
        PlacesAreNonNegative(Pop(s), id);
        assert false;
      }
    }
  }

  /** In every run. */
  lemma EveryCompletionSends(c: Config, draws: nat -> Draws, n: nat)
    requires c.Ok() && Proper(draws) && Live(c, Run(c, draws, n)) && Run(c, draws, n).queue[0].event.ServerDone?
    ensures var s := Run(c, draws, n);
            Sent(c, Pop(s), Run(c, draws, n + 1), s.queue[0].event.items, |s.queue[0].event.items|, draws(n + 1).hops, s.queue[0].time)
  {
    hide Step, Sent, Conserved;
    RunConserves(c, draws, n);
    BatchIsDistinct(Run(c, draws, n));
    CompletionSends(c, Run(c, draws, n), draws(n + 1));
  }

  /** The delay by the parameters, in milliseconds. */
  lemma DelayInMilliseconds(p: Params, r: Request, hop: Hop, delay: real)
    ensures var c := Configure(p, r);
            Delayed(c, hop, delay) <==>
              delay * 1000.0 == Max(0.0, if p.transportSigmaMs > 0.0 then hop.gauss * 1000.0 else Max(0.0, p.transportMeanMs))
  {
    SpreadsOf(p, r);
    hide Configure;
  }

  lemma SpreadsOf(p: Params, r: Request)
    ensures var c := Configure(p, r);
            c.meanDelay * 1000.0 == Max(0.0, p.transportMeanMs) && (c.sigma > 0.0 <==> p.transportSigmaMs > 0.0)
  {
  }
}
