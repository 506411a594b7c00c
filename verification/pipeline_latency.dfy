/**
 The latency identity: the age of every measured frame is its recorded request latency, without
 the lock wait, plus its transport delay, plus (at consumption) its sampling delay. The series
 the simulator reports are aligned, and no age is below the clock skew.
 */
module Latency {
  import opened Events
  import opened Pipeline
  import opened Discipline
  import opened Effects
  import opened Conservation

  /** The per-frame records that ages are computed from. */
  datatype Book = Book(flights: map<nat, Flight>, delays: map<nat, real>, captures: map<nat, real>, latency: map<nat, real>)

  ghost function BookOf(s: State): Book {
    Book(s.log.flights, s.log.delays, s.captures, s.latency)
  }

  /** A backlog frame has no recorded capture time; it was captured at time zero. */
  ghost function CaptureOf(captures: map<nat, real>, id: nat): real {
    if id in captures then captures[id] else 0.0
  }

  /** The frame was served, and its recorded latency is batch wait plus lock wait plus service. */
  ghost predicate Flown(b: Book, id: nat) {
    && id in b.flights && id in b.latency
    && var f := b.flights[id];
       && b.latency[id] == LatencyMs(f.closedAt, CaptureOf(b.captures, id), f.lockWait, f.service)
       && CaptureOf(b.captures, id) <= f.closedAt && f.lockWait >= 0.0 && f.service >= 0.0
  }

  /** It reaches the subscriber at `t`. */
  ghost predicate Lands(b: Book, id: nat, t: real) {
    && Flown(b, id) && id in b.delays && b.delays[id] >= 0.0
    && t == b.flights[id].closedAt + b.flights[id].service + b.delays[id]
  }

  ghost predicate Scheduled(b: Book, e: Entry) {
    match e.event
    case ServerDone(items, service) =>
      forall f :: f in items ==>
        Flown(b, f.id) && b.flights[f.id].service == service && e.time == b.flights[f.id].closedAt + service
    case Deliver(id) => Lands(b, id, e.time)
    case _ => true
  }

  ghost predicate Received(c: Config, b: Book, received: map<nat, real>, x: (real, nat)) {
    && Lands(b, x.1, x.0)
    && (x.1 in received <==> x.1 in b.captures)
    && (x.1 in received ==> received[x.1] == (x.0 - b.captures[x.1]) * 1000.0 + c.skew)
  }

  /** The identity, for one measured frame. */
  ghost predicate Identity(c: Config, b: Book, id: nat, age: real, sampling: real, latency: real) {
    && Flown(b, id) && id in b.delays && b.delays[id] >= 0.0
    && latency == b.latency[id] && sampling >= 0.0
    && age == c.skew + (if c.byDelivery && id in b.captures then 0.0 else sampling)
              + (if id in b.captures then latency - b.flights[id].lockWait * 1000.0 + b.delays[id] * 1000.0 else 0.0)
  }

  /** The reported series have one entry for every measured frame, and each satisfies the identity. */
  ghost predicate Aligned(c: Config, b: Book, measured: seq<nat>, stats: Stats) {
    && |measured| == stats.consumed == |stats.ages| == |stats.samplingDelays| == |stats.latencies|
    && forall i :: 0 <= i < |measured| ==>
         Identity(c, b, measured[i], stats.ages[i], stats.samplingDelays[i], stats.latencies[i])
  }

  ghost predicate Booked(b: Book, q: seq<Entry>) {
    forall e :: e in q ==> Scheduled(b, e)
  }

  ghost predicate Buffered(c: Config, b: Book, received: map<nat, real>, clock: real, buffer: seq<(real, nat)>) {
    forall x :: x in buffer ==> Received(c, b, received, x) && x.0 <= clock
  }

  /** Everything that has been dispatched is on the books. */
  ghost predicate Tracked(c: Config, s: State, b: Book) {
    && Booked(b, s.queue)
    && Buffered(c, b, s.received, s.clock, s.buffer)
    && Aligned(c, b, s.log.measured, s.stats)
  }

  ghost predicate Born(captures: map<nat, real>, clock: real, frames: seq<Frame>) {
    forall f :: f in frames ==> f.capture == CaptureOf(captures, f.id) && f.capture <= clock
  }

  /** The invariant. */
  ghost predicate Traced(c: Config, s: State) {
    && Tracked(c, s, BookOf(s))
    && Born(s.captures, s.clock, s.pending) && Born(s.captures, s.clock, s.epoch)
    && (forall id :: id in s.captures ==> id < s.next)
    && (forall id :: id in s.received ==> id in s.captures)
    && (forall id :: id in s.log.measured ==> id in s.log.consumed)
  }

  // --- frames that have been dispatched are nowhere else ------------------

  ghost predicate Carries(e: Entry, id: nat) {
    match e.event
    case ServerDone(items, _) => id in Ids(items)
    case Deliver(frame) => frame == id
    case _ => false
  }

  /** On a worker, on the link, received or consumed. */
  ghost predicate Gone(s: State, id: nat) {
    (exists e :: e in s.queue && Carries(e, id)) || id in BufferedIds(s.buffer) || id in s.log.consumed
  }

  lemma GoneIsElsewhere(s: State, id: nat)
    requires Conserved(s) && Gone(s, id)
    ensures id !in Ids(s.epoch) && id !in Ids(s.pending) && id < s.next
  {
    hide Insert, Total;
    assert Places(s, id) <= 1;
    TotalNonNegative(s.queue, Serving(id));
    TotalNonNegative(s.queue, Flying(id));
    if e :| e in s.queue && Carries(e, id) {
      assert Serving(id)(e) + Flying(id)(e) >= 1;
    }
  }

  ghost predicate Agree(b: Book, d: Book, id: nat) {
    && (id in b.flights ==> id in d.flights && d.flights[id] == b.flights[id])
    && (id in b.latency ==> id in d.latency && d.latency[id] == b.latency[id])
    && (id in b.delays ==> id in d.delays && d.delays[id] == b.delays[id])
    && (id in b.captures <==> id in d.captures)
    && (id in b.captures ==> d.captures[id] == b.captures[id])
  }

  /** Entries for other frames may be added to the books. */
  lemma Rebook(c: Config, s: State, b: Book, d: Book)
    requires Tracked(c, s, b)
    requires forall id :: id in s.log.measured ==> id in s.log.consumed
    requires forall id :: Gone(s, id) ==> Agree(b, d, id)
    ensures Tracked(c, s, d)
  {
    forall e | e in s.queue
      ensures Scheduled(d, e)
    {
      RebookEntry(s, b, d, e);
    }
    forall x | x in s.buffer
      ensures Received(c, d, s.received, x)
    {
      var i :| 0 <= i < |s.buffer| && s.buffer[i] == x;
      assert BufferedIds(s.buffer)[i] == x.1;
      assert Gone(s, x.1);
      assert Received(c, b, s.received, x);
    }
    forall i | 0 <= i < |s.log.measured|
      ensures Identity(c, d, s.log.measured[i], s.stats.ages[i], s.stats.samplingDelays[i], s.stats.latencies[i])
    {
      assert Gone(s, s.log.measured[i]);
      assert Identity(c, b, s.log.measured[i], s.stats.ages[i], s.stats.samplingDelays[i], s.stats.latencies[i]);
    }
  }

  lemma RebookEntry(s: State, b: Book, d: Book, e: Entry)
    requires e in s.queue && Scheduled(b, e)
    requires forall id :: Gone(s, id) ==> Agree(b, d, id)
    ensures Scheduled(d, e)
  {
    if e.event.ServerDone? {
      var items := e.event.items;
      forall f | f in items
        ensures Agree(b, d, f.id)
      {
        var i :| 0 <= i < |items| && items[i] == f;
        assert Ids(items)[i] == f.id;
        assert Carries(e, f.id);
        assert Gone(s, f.id);
      }
    } else if e.event.Deliver? {
      assert Carries(e, e.event.id);
      assert Gone(s, e.event.id);
    }
  }

  // --- the loops over a batch ----------------------------------------------

  lemma {:induction false} RecordLookup(items: seq<Frame>, now: real, lockWait: real, service: real, m: map<nat, real>,
                                        captures: map<nat, real>, id: nat)
    requires Born(captures, now, items)
    ensures var r := Record(items, now, lockWait, service, m);
            if id in Ids(items) then id in r && r[id] == LatencyMs(now, CaptureOf(captures, id), lockWait, service)
            else (id in m <==> id in r) && (id in m ==> r[id] == m[id])
  {
    if items != [] {
      var n := |items| - 1;
      assert Ids(items) == Ids(items[..n]) + [items[n].id];
      assert items[n] in items;
      assert forall f :: f in items[..n] ==> f in items;
      RecordLookup(items[..n], now, lockWait, service, m, captures, id);
    } else {
      assert Ids(items) == [];
    }
  }

  lemma BoardLookup(items: seq<Frame>, flight: Flight, m: map<nat, Flight>, id: nat)
    ensures var r := Board(items, flight, m);
            if id in Ids(items) then id in r && r[id] == flight
            else (id in m <==> id in r) && (id in m ==> r[id] == m[id])
  {
  }

  /** Serving a batch adds its frames to the books and nothing else. */
  lemma ServeBook(s: State, items: seq<Frame>, now: real, reason: Reason, lockWait: real, service: real, id: nat)
    requires Born(s.captures, now, items) && lockWait >= 0.0 && service >= 0.0
    ensures var d := BookOf(MarkServed(s, items, now, reason, lockWait, service));
            if id in Ids(items) then Flown(d, id) && d.flights[id] == Flight(now, lockWait, service, |items|)
            else Agree(BookOf(s), d, id)
  {
    RecordLookup(items, now, lockWait, service, s.latency, s.captures, id);
    BoardLookup(items, Flight(now, lockWait, service, |items|), s.log.flights, id);
    if id in Ids(items) {
      var i :| 0 <= i < |items| && Ids(items)[i] == id;
      assert items[i] in items;
    }
  }

  // --- pushes -----------------------------------------------------------------

  lemma PushTraced(c: Config, s: State, t: real, event: Event)
    requires Traced(c, s) && Scheduled(BookOf(s), Entry(t, s.stamp + 1, event))
    ensures Traced(c, Push(s, t, event))
  {
    hide Insert, Aligned, Buffered, Scheduled, Born;
    InsertMembers(s.queue, Entry(t, s.stamp + 1, event));
  }

  lemma StartEpochTraced(c: Config, s: State)
    requires Traced(c, s)
    ensures Traced(c, StartEpoch(c, s, s.clock))
  {
    hide Insert, Aligned, Buffered, Booked;
    var due := if c.window > 0.0 then s.clock + c.window else s.clock;
    PushTraced(c, Reopen(s, s.clock, due), due, EpochTimer(s.generation + 1));
  }

  lemma ServeTraced(c: Config, s: State, closed: State, reason: Reason, lockWait: real, service: real)
    requires Traced(c, s) && Conserved(s) && lockWait >= 0.0 && service >= 0.0
    requires closed == s.(busy := closed.busy, epoch := [], deadline := closed.deadline,
                          stats := s.stats.(requests := closed.stats.requests),
                          log := s.log.(batches := closed.log.batches, dispatched := closed.log.dispatched))
    ensures Traced(c, Serve(closed, s.epoch, s.clock, reason, lockWait, service))
  {
    hide Insert, Record, Board, Places;
    var served := MarkServed(closed, s.epoch, s.clock, reason, lockWait, service);
    var b, d := BookOf(s), BookOf(served);
    forall id | Gone(s, id)
      ensures Agree(b, d, id)
    {
      GoneIsElsewhere(s, id);
      ServeBook(closed, s.epoch, s.clock, reason, lockWait, service, id);
    }
    Rebook(c, s, b, d);
    assert Traced(c, served) by {
      hide Booked, Buffered, Identity, Born;
      assert Born(s.captures, s.clock, []) by { NobodyIsBorn(s.captures, s.clock); }
    }
    forall f | f in s.epoch
      ensures Flown(d, f.id) && d.flights[f.id] == Flight(s.clock, lockWait, service, |s.epoch|)
    {
      var i :| 0 <= i < |s.epoch| && s.epoch[i] == f;
      assert Ids(s.epoch)[i] == f.id;
      ServeBook(closed, s.epoch, s.clock, reason, lockWait, service, f.id);
    }
    PushTraced(c, served, s.clock + service, ServerDone(s.epoch, service));
  }

  lemma NobodyIsBorn(captures: map<nat, real>, clock: real)
    ensures Born(captures, clock, [])
  {
  }

  lemma LockWaitIsNonNegative(c: Config, draw: real)
    requires c.Ok()
    ensures LockWait(c, draw) >= 0.0
  {
  }

  lemma DispatchTraced(c: Config, s: State, reason: Reason, draw: real)
    requires c.Ok() && Traced(c, s) && Conserved(s)
    ensures Traced(c, Dispatch(c, s, s.clock, reason, draw))
  {
    hide Insert, Record, Board, Verdict, ServiceTime, LockWait, Booked, Buffered, Aligned, Born, Places;
    if s.epoch != [] && s.busy < c.workers {
      var closed := Close(s, s.clock, reason, Verdict(c, s, s.clock, draw));
      ServiceIsNonNegative(c, |s.epoch|);
      LockWaitIsNonNegative(c, draw);
      NobodyIsBorn(s.captures, s.clock);
      match Verdict(c, s, s.clock, draw) {
        case None => ServeTraced(c, s, closed, reason, LockWait(c, draw), ServiceTime(c, |s.epoch|));
        case Some(m) =>
          AlignedIgnores(c, s, MarkFailed(closed, s.epoch, m));
          PushTraced(c, MarkFailed(closed, s.epoch, m), s.clock, ServerFailed(s.epoch));
      }
    }
  }

  lemma AlignedIgnores(c: Config, s: State, t: State)
    requires Aligned(c, BookOf(s), s.log.measured, s.stats) && BookOf(t) == BookOf(s) && t.log.measured == s.log.measured
    requires t.stats.consumed == s.stats.consumed && t.stats.ages == s.stats.ages
    requires t.stats.samplingDelays == s.stats.samplingDelays && t.stats.latencies == s.stats.latencies
    ensures Aligned(c, BookOf(t), t.log.measured, t.stats)
  {
  }

  // --- the handlers -------------------------------------------------------------

  lemma BornAppend(captures: map<nat, real>, clock: real, frames: seq<Frame>, f: Frame)
    requires Born(captures, clock, frames) && f.capture == CaptureOf(captures, f.id) && f.capture <= clock
    ensures Born(captures, clock, frames + [f])
  {
  }

  /** The new frame is on the books from the moment it is captured, and disturbs no other. */
  lemma CaptureTraced(c: Config, s: State)
    requires Traced(c, s) && Conserved(s)
    ensures Traced(c, Capture(c, s))
    ensures CaptureOf(Capture(c, s).captures, s.next) == s.clock
  {
    hide Insert, Places;
    var t := Capture(c, s);
    var b, d := BookOf(s), BookOf(t);
    forall id | Gone(s, id)
      ensures Agree(b, d, id)
    {
      GoneIsElsewhere(s, id);
    }
    Rebook(c, s, b, d);
    forall f | f in s.pending || f in s.epoch
      ensures f.id < s.next
    {
      WaitingIsOld(s, f);
    }
    assert Buffered(c, d, t.received, t.clock, t.buffer);
  }

  lemma WaitingIsOld(s: State, f: Frame)
    requires Conserved(s) && (f in s.pending || f in s.epoch)
    ensures f.id < s.next
  {
    hide Insert, Total;
    var frames := if f in s.pending then s.pending else s.epoch;
    var i :| 0 <= i < |frames| && frames[i] == f;
    assert Ids(frames)[i] == f.id;
    NonNegativePlaces(s, f.id);
    assert Places(s, f.id) >= 1;
  }

  lemma PlaceTraced(c: Config, s: State, d: Draws)
    requires c.Ok() && Traced(c, s) && Conserved(s)
    ensures Traced(c, Place(c, Capture(c, s), Frame(s.clock, s.next), d))
  {
    hide Insert, StartEpoch, Dispatch, Booked, Buffered, Aligned, Born, Places;
    CaptureTraced(c, s);
    var born, frame := Capture(c, s), Frame(s.clock, s.next);
    var open := if born.epoch == [] then StartEpoch(c, born, born.clock) else born;
    StartEpochTraced(c, born);
    StartEpochTouches(c, born, born.clock);
    BornAppend(born.captures, born.clock, born.pending, frame);
    BornAppend(born.captures, born.clock, open.epoch, frame);
    var joined := open.(epoch := open.epoch + [frame]);
    assert Traced(c, joined);
    JoinedConserves(c, s, born, open, joined, frame);
    DispatchTraced(c, joined, BySize, d.lock);
  }

  lemma JoinedConserves(c: Config, s: State, born: State, open: State, joined: State, frame: Frame)
    requires Conserved(s) && born == Capture(c, s) && frame.id == s.next
    requires open == (if born.epoch == [] then StartEpoch(c, born, born.clock) else born)
    requires joined == open.(epoch := open.epoch + [frame])
    ensures Conserved(joined)
  {
    hide Insert, Total, StartEpoch;
    StartEpochTouches(c, born, born.clock);
    IdsOfConcatenation(open.epoch, [frame]);
    assert Ids([frame]) == [frame.id];
    forall id: nat
      ensures Places(joined, id) == if id < joined.next then 1 else 0
    {
      StartEpochPlaces(c, born, born.clock, id);
      SamePlaces(s, born, id);
    }
  }

  lemma ConservedBy(s: State, t: State)
    requires Conserved(s) && t.next == s.next && forall id: nat :: Places(t, id) == Places(s, id)
    ensures Conserved(t)
  {
  }

  lemma RefillTraced(c: Config, s: State, d: Draws)
    requires c.Ok() && Traced(c, s) && Conserved(s)
    ensures Traced(c, Refill(c, s, d))
  {
    hide Insert, StartEpoch, Dispatch, Booked, Buffered, Aligned, Places;
    if s.pending != [] {
      var open := StartEpoch(c, s, s.clock);
      StartEpochTraced(c, s);
      StartEpochTouches(c, s, s.clock);
      var filled := Fill(c, open);
      assert Traced(c, filled);
      forall id: nat
        ensures Places(filled, id) == Places(s, id)
      {
        StartEpochPlaces(c, s, s.clock, id);
        FillPlaces(c, open, id);
      }
      ConservedBy(s, filled);
      DispatchTraced(c, filled, BySize, d.lock);
    } else {
      DispatchTraced(c, s, BySize, d.lock);
    }
  }

  lemma GoneHasPlace(s: State, id: nat)
    requires Gone(s, id)
    ensures Places(s, id) >= 1
  {
    hide Insert, Total;
    TotalNonNegative(s.queue, Serving(id));
    TotalNonNegative(s.queue, Flying(id));
    if e :| e in s.queue && Carries(e, id) {
      assert Serving(id)(e) + Flying(id)(e) >= 1;
    }
  }

  lemma LaunchTraced(c: Config, s: State, id: nat, delay: real)
    requires Traced(c, s) && Places(s, id) == 0 && delay >= 0.0
    requires Flown(BookOf(s), id) && s.clock == s.log.flights[id].closedAt + s.log.flights[id].service
    ensures Traced(c, Launch(s, id, delay))
  {
    hide Insert, Places;
    var t := s.(log := s.log.(delays := s.log.delays[id := delay]));
    forall x | Gone(s, x)
      ensures Agree(BookOf(s), BookOf(t), x)
    {
      GoneHasPlace(s, x);
    }
    Rebook(c, s, BookOf(s), BookOf(t));
    assert Traced(c, t) by {
      hide Booked, Buffered, Identity, Born;
    }
    PushTraced(c, t, s.clock + delay, Deliver(id));
  }

  lemma LoseTraced(c: Config, s: State, id: nat)
    requires Traced(c, s)
    ensures Traced(c, Lose(s, id))
  {
    hide Insert, Booked, Buffered, Aligned, Born;
    AlignedIgnores(c, s, Lose(s, id));
  }

  /** A completed batch: its frames were served, and are nowhere until they are on the link. */
  ghost predicate Landing(s: State, items: seq<Frame>) {
    && (forall f :: f in items ==>
          Flown(BookOf(s), f.id) && s.clock == s.log.flights[f.id].closedAt + s.log.flights[f.id].service)
    && (forall id: nat :: Places(s, id) + Of(Ids(items), id) <= 1)
  }

  lemma {:induction false} DepartTraced(c: Config, s: State, items: seq<Frame>, k: nat, hops: nat -> Hop)
    requires k <= |items| && Traced(c, s) && Landing(s, items)
    ensures Traced(c, Depart(c, s, items, k, hops))
  {
    hide Insert, Traced, Places, Flown, Launch, Lose, Delay;
    if k > 0 {
      DepartTraced(c, s, items, k - 1, hops);
      var t, f := Depart(c, s, items, k - 1, hops), items[k - 1];
      DepartTouches(c, s, items, k - 1, hops);
      DepartPlaces(c, s, items, k - 1, hops, f.id);
      assert Ids(items) == Ids(items[..k - 1]) + [f.id] + Ids(items[k..]);
      assert f in items;
      FlownStays(BookOf(s), BookOf(t), f.id);
      LoseTraced(c, t, f.id);
      DelayIsNonNegative(c, hops(k - 1));
      PlacesAreNonNegative(s, f.id);
      LaunchTraced(c, t, f.id, Delay(c, hops(k - 1)));
    }
  }

  lemma PlacesAreNonNegative(s: State, id: nat)
    ensures Places(s, id) >= 0
  {
    NonNegativePlaces(s, id);
  }

  lemma DelayIsNonNegative(c: Config, hop: Hop)
    ensures Delay(c, hop) >= 0.0
  {
  }

  lemma FlownStays(b: Book, d: Book, id: nat)
    requires Flown(b, id) && d.flights == b.flights && d.latency == b.latency && d.captures == b.captures
    ensures Flown(d, id)
  {
  }

  lemma DeliverTraced(c: Config, s: State, id: nat)
    requires Traced(c, s) && Lands(BookOf(s), id, s.clock) && Places(s, id) == 0
    ensures Traced(c, OnDeliver(c, s, id))
  {
    hide Insert, Places, Booked, Aligned, Born;
    var t := OnDeliver(c, s, id);
    AlignedIgnores(c, s, t);
    if id in BufferedIds(s.buffer) {
      GoneHasPlace(s, id);
    }
    var b := BookOf(s);
    forall x | x in s.buffer + [(s.clock, id)]
      ensures Received(c, b, t.received, x) && x.0 <= s.clock
    {
      if x in s.buffer {
        var i :| 0 <= i < |s.buffer| && s.buffer[i] == x;
        assert BufferedIds(s.buffer)[i] == x.1;
        assert Received(c, b, s.received, x);
      }
    }
  }

  lemma SampleTraced(c: Config, s: State)
    requires Traced(c, s)
    ensures Traced(c, Sample(c, s))
  {
    hide Insert, Booked, Born;
    if s.buffer != [] {
      var newest := s.buffer[|s.buffer| - 1];
      assert newest in s.buffer;
      assert Received(c, BookOf(s), s.received, newest);
      var t := Measure(c, s, newest);
      assert (s.clock - newest.0) * 1000.0 >= 0.0;
      assert Identity(c, BookOf(s), newest.1, EffectiveAge(c, s, newest), (s.clock - newest.0) * 1000.0, s.latency[newest.1]);
    }
  }

  lemma PopTraced(c: Config, s: State)
    requires Traced(c, s) && s.queue != [] && s.clock <= s.queue[0].time
    ensures Traced(c, Pop(s)) && Scheduled(BookOf(s), s.queue[0])
  {
    hide Insert, Scheduled, Aligned, Received;
    assert s.queue[0] in s.queue;
  }

  /** An entry that carries no frame leaves every frame in its place. */
  lemma PopConserves(c: Config, s: State)
    requires Conserved(s) && s.queue != [] && !s.queue[0].event.ServerDone? && !s.queue[0].event.Deliver?
    ensures Conserved(Pop(s))
  {
    hide Places;
    forall id: nat
      ensures Places(Pop(s), id) == Places(s, id)
    {
      PopPlaces(s, id);
    }
  }

  lemma CreditTraced(c: Config, s: State, service: real)
    requires Traced(c, s)
    ensures Traced(c, Credit(c, Release(s), service))
  {
    hide Insert, Booked, Buffered, Aligned, Born;
    AlignedIgnores(c, s, Credit(c, Release(s), service));
  }

  lemma DoneTraced(c: Config, s: State, items: seq<Frame>, service: real, d: Draws)
    requires c.Ok() && Traced(c, s) && Landing(s, items)
    requires forall id: nat :: Places(s, id) + Of(Ids(items), id) == if id < s.next then 1 else 0
    ensures Traced(c, OnDone(c, s, items, service, d))
  {
    hide Insert, Traced, Places, Depart, Refill, Flown;
    var worked := Credit(c, Release(s), service);
    CreditTraced(c, s, service);
    forall id: nat
      ensures Places(worked, id) == Places(s, id)
    {
      SamePlaces(s, worked, id);
    }
    DepartTraced(c, worked, items, |items|, d.hops);
    var departed := Depart(c, worked, items, |items|, d.hops);
    DepartTouches(c, worked, items, |items|, d.hops);
    forall id: nat
      ensures Places(departed, id) == if id < departed.next then 1 else 0
    {
      assert items[..|items|] == items;
      DepartPlaces(c, worked, items, |items|, d.hops, id);
    }
    RefillTraced(c, departed, d);
  }

  lemma StepTraced(c: Config, s: State, d: Draws)
    requires c.Ok() && Orderly(c, s) && Conserved(s) && Traced(c, s) && Live(c, s)
    ensures Traced(c, Step(c, s, d))
  {
    hide Insert, Traced, Places, Place, Refill, Depart, Dispatch, Sample, OnDeliver, OnDone, Orderly, Flown, Total;
    var e := s.queue[0];
    assert s.clock <= e.time by { PopEffect(c, s); }
    PopTraced(c, s);
    var p := Pop(s);
    match e.event
    case Arrival =>
      PopConserves(c, s);
      PlaceTraced(c, p, d);
      PushTraced(c, Place(c, Capture(c, p), Frame(p.clock, p.next), d), p.clock + d.gap, Arrival);
    case EpochTimer(_) =>
      PopConserves(c, s);
      DispatchTraced(c, p, ByWindow, d.lock);
    case ServerDone(items, service) =>
      forall id: nat
        ensures Places(p, id) + Of(Ids(items), id) == if id < p.next then 1 else 0
      {
        PopPlaces(s, id);
      }
      LandingAt(s, p, items);
      DoneTraced(c, p, items, service, d);
    case ServerFailed(_) =>
      PopConserves(c, s);
      ReleaseTraced(c, p);
      RefillTraced(c, Release(p), d);
    case Deliver(id) =>
      PopPlaces(s, id);
      PlacesAreNonNegative(p, id);
      DeliverTraced(c, p, id);
    case Consume =>
      SampleTraced(c, p);
      PushTraced(c, Sample(c, p), p.clock + c.period, Consume);
  }

  lemma ReleaseTraced(c: Config, s: State)
    requires Traced(c, s) && Conserved(s)
    ensures Traced(c, Release(s)) && Conserved(Release(s))
  {
    hide Insert, Places, Booked, Buffered, Aligned, Born;
    forall id: nat
      ensures Places(Release(s), id) == Places(s, id)
    {
      SamePlaces(s, Release(s), id);
    }
  }

  lemma LandingAt(s: State, p: State, items: seq<Frame>)
    requires s.queue != [] && p == Pop(s) && s.queue[0].event.ServerDone? && s.queue[0].event.items == items
    requires Scheduled(BookOf(s), s.queue[0])
    requires forall id: nat :: Places(p, id) + Of(Ids(items), id) == if id < p.next then 1 else 0
    ensures Landing(p, items)
  {
    hide Places;
    forall f | f in items
      ensures Flown(BookOf(p), f.id) && p.clock == p.log.flights[f.id].closedAt + p.log.flights[f.id].service
    {
      assert Flown(BookOf(s), f.id);
      assert BookOf(s) == BookOf(p);
    }
  }

  lemma StartTraced(c: Config, gap: real)
    ensures Traced(c, Start(c, gap))
  {
    hide Insert;
    var s := Start(c, gap).(queue := [], stamp := 0);
    assert Traced(c, s);
    PushTraced(c, s, gap, Arrival);
    PushTraced(c, Push(s, gap, Arrival), 0.0, Consume);
  }

  lemma {:induction false} RunIsTraced(c: Config, draws: nat -> Draws, n: nat)
    requires c.Ok() && Proper(draws)
    ensures Traced(c, Run(c, draws, n))
  {
    hide Step, Start, Traced, Orderly, Conserved;
    if n == 0 {
      StartTraced(c, draws(0).gap);
    } else {
      RunIsTraced(c, draws, n - 1);
      RunIsOrderly(c, draws, n - 1);
      RunConserves(c, draws, n - 1);
      if Live(c, Run(c, draws, n - 1)) {
        StepTraced(c, Run(c, draws, n - 1), draws(n));
      }
    }
  }

  // --- what the reader of the report may conclude --------------------------------

  /** Every measured frame: three aligned series, a recorded latency, and an age that is the sum of its parts. */
  lemma LatencyIdentity(c: Config, draws: nat -> Draws, n: nat, i: nat)
    requires c.Ok() && Proper(draws) && i < Run(c, draws, n).stats.consumed
    ensures var s := Run(c, draws, n);
            && |s.log.measured| == |s.stats.ages| == |s.stats.samplingDelays| == |s.stats.latencies| == s.stats.consumed
            && var id := s.log.measured[i];
            && id in s.latency && s.stats.latencies[i] == s.latency[id]
            && id in s.log.flights && id in s.log.delays
            && var f := s.log.flights[id];
            && s.stats.latencies[i] == (f.closedAt - CaptureOf(s.captures, id) + f.lockWait + f.service) * 1000.0
            && s.stats.ages[i] == c.skew
                 + (if id in s.captures then (f.closedAt - s.captures[id] + f.service + s.log.delays[id]) * 1000.0 else 0.0)
                 + (if c.byDelivery && id in s.captures then 0.0 else s.stats.samplingDelays[i])
  {
    hide Run;
    RunIsTraced(c, draws, n);
    var s := Run(c, draws, n);
    assert Identity(c, BookOf(s), s.log.measured[i], s.stats.ages[i], s.stats.samplingDelays[i], s.stats.latencies[i]);
  }

  /** Time never runs backwards for a frame: with no skew every age is nonnegative. */
  lemma AgesAreNonNegative(c: Config, draws: nat -> Draws, n: nat, i: nat)
    requires c.Ok() && Proper(draws) && i < |Run(c, draws, n).stats.ages|
    ensures Run(c, draws, n).stats.ages[i] >= c.skew
  {
    hide Run;
    RunIsTraced(c, draws, n);
    var s := Run(c, draws, n);
    assert Identity(c, BookOf(s), s.log.measured[i], s.stats.ages[i], s.stats.samplingDelays[i], s.stats.latencies[i]);
  }

  /** Without skew, the age of a consumed frame is its request latency less the lock wait, plus the transport and sampling delays. */
  lemma AgeFromLatency(c: Config, draws: nat -> Draws, n: nat, i: nat)
    requires c.Ok() && Proper(draws) && c.skew == 0.0 && !c.byDelivery && i < Run(c, draws, n).stats.consumed
    ensures var s := Run(c, draws, n);
            && |s.log.measured| == |s.stats.ages| == |s.stats.samplingDelays| == |s.stats.latencies| == s.stats.consumed
            && var id := s.log.measured[i];
            && id in s.log.flights && id in s.log.delays
            && (id in s.captures ==>
                  s.stats.ages[i] == s.stats.latencies[i] - s.log.flights[id].lockWait * 1000.0
                                     + s.log.delays[id] * 1000.0 + s.stats.samplingDelays[i])
  {
    hide Run;
    LatencyIdentity(c, draws, n, i);
  }
}
