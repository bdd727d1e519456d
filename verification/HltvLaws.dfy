/** What every run of the delay-and-clock protocol keeps: nothing is lost, the old level's tail goes
    first, both queues stay ordered, and the two boundary detectors never part by more than one
    threshold. */
module HltvLaws {
  import opened Wrappers
  import opened HltvSync
  import opened HltvDelayBuffer
  import opened HltvPipeline

  // ---- Conservation ----

  function Items(d: seq<DrainItem>): seq<BufferedEvent> {
    seq(|d|, i requires 0 <= i < |d| => d[i].item)
  }

  function FiredItems(log: seq<Fired>): seq<BufferedEvent> {
    seq(|log|, i requires 0 <= i < |log| => log[i].item)
  }

  /** Every event the buffer holds or has fired, with multiplicity. */
  ghost function Held(b: ServerBuffer): multiset<BufferedEvent> {
    multiset(b.queue) + multiset(Items(b.draining)) + multiset(FiredItems(b.fired))
  }

  lemma {:induction false} ItemsOfInsert(d: seq<DrainItem>, x: DrainItem)
    ensures multiset(Items(InsertByRelease(d, x))) == multiset(Items(d)) + multiset{x.item}
  {
    if d == [] || d[|d| - 1].releaseAt <= x.releaseAt {
      assert Items(d + [x]) == Items(d) + [x.item];
    } else {
      var front, last := d[..|d| - 1], d[|d| - 1];
      ItemsOfInsert(front, x);
      assert Items(InsertByRelease(front, x) + [last]) == Items(InsertByRelease(front, x)) + [last.item];
      assert Items(d) == Items(front) + [last.item];
    }
  }

  lemma {:induction false} ItemsOfSort(d: seq<DrainItem>)
    ensures multiset(Items(SortByRelease(d))) == multiset(Items(d))
  {
    hide InsertByRelease;
    if d != [] {
      ItemsOfSort(d[..|d| - 1]);
      ItemsOfInsert(SortByRelease(d[..|d| - 1]), d[|d| - 1]);
      assert Items(d) == Items(d[..|d| - 1]) + [d[|d| - 1].item];
    }
  }

  lemma ItemsOfStamped(cfg: Config, d: seq<DrainItem>, items: seq<BufferedEvent>, basis: Option<ClockBasis>)
    ensures Items(d + Stamp(cfg, items, basis)) == Items(d) + items
    ensures items == [] ==> Stamp(cfg, items, basis) == []
  {
    hide ProjectReleaseAt;
  }

  lemma DrainTailHolds(cfg: Config, sync: ServerSync, b: ServerBuffer, items: seq<BufferedEvent>)
    ensures multiset(Items(DrainTail(cfg, sync, b, items).draining)) == multiset(Items(b.draining)) + multiset(items)
    ensures multiset(DrainTail(cfg, sync, b, items).draining)
         == multiset(b.draining) + multiset(Stamp(cfg, items, TailBasis(sync)))
  {
    hide Items, Stamp, SortByRelease, TailBasis;
    ItemsOfStamped(cfg, b.draining, items, TailBasis(sync));
    ItemsOfSort(b.draining + Stamp(cfg, items, TailBasis(sync)));
  }

  lemma {:induction false} InsertByTickHolds(q: seq<BufferedEvent>, it: BufferedEvent)
    ensures multiset(InsertByTick(q, it)) == multiset(q) + multiset{it}
  {
    if q != [] && NumericTick(q[|q| - 1]) > NumericTick(it) {
      InsertByTickHolds(q[..|q| - 1], it);
      assert q == q[..|q| - 1] + [q[|q| - 1]];
    }
  }

  lemma {:induction false} SiftPartitions(q: seq<BufferedEvent>, activeTime: real)
    ensures multiset(Sift(q, activeTime, true)) + multiset(Sift(q, activeTime, false)) == multiset(q)
  {
    if q != [] {
      SiftPartitions(q[..|q| - 1], activeTime);
      assert q == q[..|q| - 1] + [q[|q| - 1]];
    }
  }

  lemma EnqueueHolds(cfg: Config, sync: ServerSync, b: ServerBuffer, it: BufferedEvent, now: real)
    ensures Held(Enqueue(cfg, sync, b, it, now)) == Held(b) + multiset{it}
    ensures multiset(Enqueue(cfg, sync, b, it, now).draining)
         == multiset(b.draining) + multiset(Stamp(cfg, Moved(sync, b, it, now), TailBasis(sync)))
  {
    hide DrainTail, OldEpochTick, TailFarAbove, InsertByTick, Items, FiredItems, ProjectReleaseAt, TailBasis;
    DrainTailFrame(cfg, sync, b, [it]);
    DrainTailFrame(cfg, sync, b, b.queue);
    if OldEpochTick(sync, NumericTick(it), now) {
      DrainTailHolds(cfg, sync, b, [it]);
    } else if TailFarAbove(b.queue, NumericTick(it)) {
      DrainTailHolds(cfg, sync, b, b.queue);
    } else {
      InsertByTickHolds(b.queue, it);
    }
  }

  lemma EnqueueKeepsLog(cfg: Config, sync: ServerSync, b: ServerBuffer, it: BufferedEvent, now: real)
    ensures Enqueue(cfg, sync, b, it, now).fired == b.fired
  {
    hide InsertByTick, OldEpochTick;
  }

  lemma ReleaseStrandedHolds(cfg: Config, sync: ServerSync, b: ServerBuffer, activeTime: real)
    ensures Held(ReleaseStranded(cfg, sync, b, activeTime)) == Held(b)
    ensures multiset(ReleaseStranded(cfg, sync, b, activeTime).draining)
         == multiset(b.draining) + multiset(Stamp(cfg, Sift(b.queue, activeTime, true), TailBasis(sync)))
  {
    DrainTailHolds(cfg, sync, b.(queue := Sift(b.queue, activeTime, false)), Sift(b.queue, activeTime, true));
    SiftPartitions(b.queue, activeTime);
  }

  /** The drained entries of a fire log. */
  function DrainsOf(log: seq<Fired>): seq<DrainItem> {
    if log == [] then []
    else
      var last := log[|log| - 1];
      DrainsOf(log[..|log| - 1]) + if last.releaseAt.Some? then [DrainItem(last.item, last.releaseAt.value)] else []
  }

  lemma {:induction false} DrainsOfAppend(a: seq<Fired>, b: seq<Fired>)
    ensures DrainsOf(a + b) == DrainsOf(a) + DrainsOf(b)
  {
    if b == [] {
      assert a + b == a;
    } else {
      DrainsOfAppend(a, b[..|b| - 1]);
      assert (a + b)[..|a + b| - 1] == a + b[..|b| - 1];
    }
  }

  lemma {:induction false} DrainsOfDrained(d: seq<DrainItem>, now: real)
    ensures DrainsOf(FireDrained(d, now)) == d
  {
    if d != [] {
      DrainsOfDrained(d[..|d| - 1], now);
      assert FireDrained(d, now)[..|d| - 1] == FireDrained(d[..|d| - 1], now);
    }
  }

  lemma {:induction false} DrainsOfQueued(q: seq<BufferedEvent>, now: real)
    ensures DrainsOf(FireQueued(q, now)) == []
  {
    if q != [] {
      DrainsOfQueued(q[..|q| - 1], now);
      assert FireQueued(q, now)[..|q| - 1] == FireQueued(q[..|q| - 1], now);
    }
  }

  lemma ReleaseDrainHolds(b: ServerBuffer, now: real)
    ensures Held(ReleaseDrain(b, now)) == Held(b)
  {
    var n := DueCount(b.draining, now);
    var fires := FireDrained(b.draining[..n], now);
    assert Items(b.draining) == FiredItems(fires) + Items(b.draining[n..]);
    assert FiredItems(b.fired + fires) == FiredItems(b.fired) + FiredItems(fires);
  }

  lemma ReleaseDrainLedger(b: ServerBuffer, now: real)
    ensures var r := ReleaseDrain(b, now);
      multiset(r.draining) + multiset(DrainsOf(r.fired)) == multiset(b.draining) + multiset(DrainsOf(b.fired))
  {
    var n := DueCount(b.draining, now);
    assert b.draining == b.draining[..n] + b.draining[n..];
    DrainsOfAppend(b.fired, FireDrained(b.draining[..n], now));
    DrainsOfDrained(b.draining[..n], now);
  }

  lemma ReleaseQueueHolds(cfg: Config, sync: ServerSync, b: ServerBuffer, now: real)
    ensures var r := ReleaseQueue(cfg, sync, b, now);
      && Held(r) == Held(b)
      && r.draining == b.draining && DrainsOf(r.fired) == DrainsOf(b.fired)
  {
    if b.draining == [] {
      var n := ReadyCount(cfg, sync, b.queue, now);
      var fires := FireQueued(b.queue[..n], now);
      assert b.queue == b.queue[..n] + b.queue[n..];
      assert FiredItems(fires) == b.queue[..n];
      assert FiredItems(b.fired + fires) == FiredItems(b.fired) + FiredItems(fires);
      DrainsOfAppend(b.fired, fires);
      DrainsOfQueued(b.queue[..n], now);
    }
  }

  /** Nothing lost, duplicated or invented; and the drain holds exactly what was moved to it and
      has not fired. */
  ghost predicate Conserved(s: Server) {
    && multiset(s.accepted) == Held(s.buf)
    && multiset(s.drained) == multiset(s.buf.draining) + multiset(DrainsOf(s.buf.fired))
  }

  /** A delivery numbers the post, and leaves the sync state detection left. */
  lemma DeliverAccepts(env: Env, s: Server, e: Event, now: real)
    ensures DeliverTo(env, s, e, now).accepted == s.accepted + [Numbered(env, s, e, now)]
    ensures DeliverTo(env, s, e, now).sync == OnIngestEvent(s.sync, e, now)
  {
  }

  /** What a delivery leaves in the queue and in the drain. */
  lemma DeliverMoves(env: Env, s: Server, e: Event, now: real)
    ensures
      var r, it, seen := DeliverTo(env, s, e, now).buf, Numbered(env, s, e, now), OnIngestEvent(s.sync, e, now);
      && r.fired == s.buf.fired
      && if OldEpochTick(seen, NumericTick(it), now) then
           r.queue == s.buf.queue && r.draining == DrainTail(env.cfg, seen, s.buf, [it]).draining
         else if TailFarAbove(s.buf.queue, NumericTick(it)) then
           r.queue == [it] && r.draining == DrainTail(env.cfg, seen, s.buf, s.buf.queue).draining
         else r.draining == s.buf.draining && r.queue == InsertByTick(s.buf.queue, it)
  {
    var it, seen := Numbered(env, s, e, now), OnIngestEvent(s.sync, e, now);
    hide OnIngestEvent, OldEpochTick, DrainTail, TailFarAbove, InsertByTick;
    DrainTailFrame(env.cfg, seen, s.buf, [it]);
    DrainTailFrame(env.cfg, seen, s.buf, s.buf.queue);
  }

  /** An emission only thins the queue. */
  lemma EmitThins(env: Env, s: Server)
    ensures EmitClock(env, s).sync == s.sync && EmitClock(env, s).accepted == s.accepted
    ensures EmitClock(env, s).buf.fired == s.buf.fired
    ensures forall x :: x in EmitClock(env, s).buf.queue ==> x in s.buf.queue
  {
    hide SortByRelease, Stamp, TailBasis;
  }

  lemma EmitClockConserves(env: Env, s: Server)
    requires Conserved(s)
    ensures Conserved(EmitClock(env, s))
  {
    if s.sync.clock.Some? {
      ReleaseStrandedHolds(env.cfg, s.sync, s.buf, s.sync.clock.value.basis.activeTime);
    }
  }

  lemma DeliverConserves(env: Env, s: Server, e: Event, now: real)
    requires Conserved(s)
    ensures Conserved(DeliverTo(env, s, e, now))
  {
    hide OnIngestEvent, Enqueue, Moved, Held, DrainsOf, TailBasis;
    EnqueueKeepsLog(env.cfg, OnIngestEvent(s.sync, e, now), s.buf, Numbered(env, s, e, now), now);
    EnqueueHolds(env.cfg, OnIngestEvent(s.sync, e, now), s.buf, Numbered(env, s, e, now), now);
  }

  lemma DriverConserves(env: Env, s: Server, now: real)
    requires Conserved(s)
    ensures Conserved(Next(env, s, DriverTick(now)))
  {
    hide ReleaseDrain, ReleaseQueue, Held, DrainsOf;
    ReleaseDrainHolds(s.buf, now);
    ReleaseDrainLedger(s.buf, now);
    ReleaseQueueHolds(env.cfg, s.sync, ReleaseDrain(s.buf, now), now);
  }

  lemma NextConserves(env: Env, s: Server, a: Action)
    requires Conserved(s)
    ensures Conserved(Next(env, s, a))
  {
    hide DeliverTo, EmitClock;
    match a
    case Deliver(e, now) => DeliverConserves(env, s, e, now);
    case StartSample(_, _) =>
    case SampleOk(status) => EmitClockConserves(env, s.(sync := HltvSync.SampleOk(s.sync, status)));
    case SampleFail(message) => EmitClockConserves(env, s.(sync := HltvSync.SampleFail(env.cfg, s.sync, message)));
    case Calibrate(offsetMs) => EmitClockConserves(env, s.(sync := SetCalibration(s.sync, offsetMs)));
    case DriverTick(now) => DriverConserves(env, s, now);
  }

  lemma {:induction false} RunConserves(env: Env, states: seq<Server>, acts: seq<Action>, k: nat)
    requires RunsFromStart(env, states, acts) && k < |states|
    ensures Conserved(states[k])
  {
    hide Next;
    if k > 0 {
      hide Conserved;
      RunConserves(env, states, acts, k - 1);
      NextConserves(env, states[k - 1], acts[k - 1]);
    }
  }

  // ---- Order ----

  predicate Before(a: BufferedEvent, b: BufferedEvent) {
    NumericTick(a) < NumericTick(b) || (NumericTick(a) == NumericTick(b) && a.arrival < b.arrival)
  }

  /** Ticks ascend, and equal ticks keep their arrival order. */
  ghost predicate QueueOrdered(q: seq<BufferedEvent>) {
    forall i, j :: 0 <= i < j < |q| ==> Before(q[i], q[j])
  }

  /** An event queued earlier is never more than one threshold above one queued later. */
  ghost predicate NearArrivalOrder(q: seq<BufferedEvent>) {
    forall i, j :: 0 <= i < |q| && 0 <= j < |q| && q[i].arrival < q[j].arrival ==>
      NumericTick(q[i]) - NumericTick(q[j]) <= TICK_RESET_THRESHOLD_S
  }

  /** No queued tick is more than one threshold above the high-water mark. */
  ghost predicate BelowHighWater(sync: ServerSync, q: seq<BufferedEvent>) {
    sync.highestEventTick.Some? ==>
      forall i :: 0 <= i < |q| && q[i].event.tick.Some? ==>
        NumericTick(q[i]) <= sync.highestEventTick.value + TICK_RESET_THRESHOLD_S
  }

  ghost predicate QueueInv(s: Server) {
    && QueueOrdered(s.buf.queue)
    && NearArrivalOrder(s.buf.queue)
    && BelowHighWater(s.sync, s.buf.queue)
    && SortedByRelease(s.buf.draining)
    && (forall i :: 0 <= i < |s.buf.queue| ==> s.buf.queue[i].arrival < |s.accepted|)
    && (forall i :: 0 <= i < |s.buf.fired| && s.buf.fired[i].releaseAt.Some? ==>
          s.buf.fired[i].releaseAt.value <= s.buf.fired[i].at)
  }

  lemma InsertByTickMembers(q: seq<BufferedEvent>, it: BufferedEvent)
    ensures forall x :: x in InsertByTick(q, it) <==> x in q || x == it
  {
    InsertByTickHolds(q, it);
    forall x ensures x in InsertByTick(q, it) <==> x in q || x == it {
      assert x in InsertByTick(q, it) <==> x in multiset(InsertByTick(q, it));
      assert x in q <==> x in multiset(q);
    }
  }

  lemma AppendOrdered(q: seq<BufferedEvent>, last: BufferedEvent)
    requires QueueOrdered(q) && forall x :: x in q ==> Before(x, last)
    ensures QueueOrdered(q + [last])
  {
    assert forall i :: 0 <= i < |q| ==> q[i] in q;
  }

  lemma {:induction false} InsertByTickOrdered(q: seq<BufferedEvent>, it: BufferedEvent)
    requires QueueOrdered(q)
    requires forall x :: x in q ==> x.arrival < it.arrival
    ensures QueueOrdered(InsertByTick(q, it))
  {
    if q == [] || NumericTick(q[|q| - 1]) <= NumericTick(it) {
      AppendOrdered(q, it);
    } else {
      var front, last := q[..|q| - 1], q[|q| - 1];
      InsertByTickOrdered(front, it);
      InsertByTickMembers(front, it);
      assert forall x :: x in front ==> Before(x, last);
      AppendOrdered(InsertByTick(front, it), last);
    }
  }

  /** A sub-sequence of an ordered queue, as a rescue leaves it. */
  lemma {:induction false} SiftKeeps(q: seq<BufferedEvent>, activeTime: real, wanted: bool)
    requires QueueOrdered(q)
    ensures QueueOrdered(Sift(q, activeTime, wanted))
  {
    if q != [] {
      var front, last := q[..|q| - 1], q[|q| - 1];
      SiftKeeps(front, activeTime, wanted);
      assert forall x :: x in front ==> Before(x, last);
      AppendOrdered(Sift(front, activeTime, wanted), last);
    }
  }

  /** A queue drawn from `q` inherits what `q` promised pairwise. */
  lemma SubQueueKeeps(sync: ServerSync, q: seq<BufferedEvent>, sub: seq<BufferedEvent>)
    requires NearArrivalOrder(q) && BelowHighWater(sync, q)
    requires forall x :: x in sub ==> x in q
    ensures NearArrivalOrder(sub) && BelowHighWater(sync, sub)
  {
    assert forall i :: 0 <= i < |sub| ==> sub[i] in q;
  }

  lemma DrainTailSorted(cfg: Config, sync: ServerSync, b: ServerBuffer, items: seq<BufferedEvent>)
    requires SortedByRelease(b.draining)
    ensures SortedByRelease(DrainTail(cfg, sync, b, items).draining)
  {
    SortIsSorted(b.draining + Stamp(cfg, items, TailBasis(sync)));
  }

  lemma EmitClockKeepsQueue(env: Env, s: Server)
    requires QueueInv(s)
    ensures QueueInv(EmitClock(env, s))
  {
    if s.sync.clock.Some? {
      var activeTime := s.sync.clock.value.basis.activeTime;
      var kept := Sift(s.buf.queue, activeTime, false);
      SiftKeeps(s.buf.queue, activeTime, false);
      SubQueueKeeps(s.sync, s.buf.queue, kept);
      DrainTailSorted(env.cfg, s.sync, s.buf.(queue := kept), Sift(s.buf.queue, activeTime, true));
      assert forall i :: 0 <= i < |kept| ==> kept[i] in s.buf.queue;
    }
  }

  /** Outside the map-change branch, boundary detection and the enqueue right after it give a
      ticked event the same straggler verdict, whatever detection changed in between. */
  lemma DetectorsAgreeOnStragglers(s: ServerSync, e: Event, now: real)
    requires s.lazyInited && !MapChanged(s, e) && e.tick.Some?
    ensures OldEpochTick(OnIngestEvent(s, e, now), e.tick.value, now) <==> OldEpochTick(s, e.tick.value, now)
  {
  }

  /** A straggler reaches the drain and touches nothing else: not the high-water mark, the
      snapshots, the clock or the main queue. */
  lemma StragglerOnlyDrains(env: Env, s: Server, e: Event, now: real)
    requires s.sync.lazyInited && !MapChanged(s.sync, e) && e.tick.Some?
    requires OldEpochTick(s.sync, e.tick.value, now)
    ensures var r := DeliverTo(env, s, e, now);
      && r.sync == s.sync
      && r.buf.queue == s.buf.queue && r.buf.fired == s.buf.fired
      && multiset(r.buf.draining) == multiset(s.buf.draining)
           + multiset{DrainItem(Numbered(env, s, e, now),
                                ProjectReleaseAt(env.cfg, Numbered(env, s, e, now), TailBasis(s.sync)))}
  {
    EnqueueHolds(env.cfg, s.sync, s.buf, Numbered(env, s, e, now), now);
  }

  /** Where detection leaves the high-water mark: at or above an event that is not a straggler,
      and untouched by one that is or that has no tick. */
  lemma DetectionSettles(s: ServerSync, e: Event, now: real)
    requires OnIngestEvent(s, e, now).highestEventTick.Some?
    ensures var r := OnIngestEvent(s, e, now);
      && (e.tick.None? ==> r.highestEventTick == s.highestEventTick)
      && (e.tick.Some? && OldEpochTick(r, e.tick.value, now) ==> r == s)
      && (e.tick.Some? && !OldEpochTick(r, e.tick.value, now) ==> r.highestEventTick.value >= e.tick.value)
  {
  }

  /** An enqueue either leaves the queue alone (a straggler) or leaves nothing in it more than one
      threshold above the event it queued. */
  lemma EnqueueBoundsQueue(cfg: Config, sync: ServerSync, b: ServerBuffer, it: BufferedEvent, now: real)
    requires QueueOrdered(b.queue)
    ensures var r := Enqueue(cfg, sync, b, it, now);
      && (OldEpochTick(sync, NumericTick(it), now) ==> r.queue == b.queue)
      && (!OldEpochTick(sync, NumericTick(it), now) ==>
            forall x :: x in r.queue ==>
              (x in b.queue || x == it) && NumericTick(x) <= NumericTick(it) + TICK_RESET_THRESHOLD_S)
  {
    InsertByTickMembers(b.queue, it);
    if b.queue != [] {
      var last := b.queue[|b.queue| - 1];
      assert forall x :: x in b.queue ==> x == last || Before(x, last);
    }
  }

  lemma EnqueueKeepsOrder(cfg: Config, sync: ServerSync, b: ServerBuffer, it: BufferedEvent, now: real)
    requires QueueOrdered(b.queue) && NearArrivalOrder(b.queue)
    requires forall x :: x in b.queue ==> x.arrival < it.arrival
    ensures QueueOrdered(Enqueue(cfg, sync, b, it, now).queue)
    ensures NearArrivalOrder(Enqueue(cfg, sync, b, it, now).queue)
  {
    InsertByTickOrdered(b.queue, it);
    EnqueueBoundsQueue(cfg, sync, b, it, now);
    var q := Enqueue(cfg, sync, b, it, now).queue;
    forall i, j | 0 <= i < |q| && 0 <= j < |q| && q[i].arrival < q[j].arrival
      ensures NumericTick(q[i]) - NumericTick(q[j]) <= TICK_RESET_THRESHOLD_S
    {
      assert q[i] in q && q[j] in q;
    }
  }

  lemma EnqueueKeepsSorted(cfg: Config, sync: ServerSync, b: ServerBuffer, it: BufferedEvent, now: real)
    requires SortedByRelease(b.draining)
    ensures SortedByRelease(Enqueue(cfg, sync, b, it, now).draining)
  {
    DrainTailSorted(cfg, sync, b, [it]);
    DrainTailSorted(cfg, sync, b, b.queue);
  }

  lemma DeliverKeepsHighWater(env: Env, s: Server, e: Event, now: real)
    requires QueueOrdered(s.buf.queue) && BelowHighWater(s.sync, s.buf.queue)
    ensures BelowHighWater(DeliverTo(env, s, e, now).sync, DeliverTo(env, s, e, now).buf.queue)
  {
    var sync := OnIngestEvent(s.sync, e, now);
    var it := Numbered(env, s, e, now);
    var q := Enqueue(env.cfg, sync, s.buf, it, now).queue;
    EnqueueBoundsQueue(env.cfg, sync, s.buf, it, now);
    hide Enqueue, OldEpochTick, OnIngestEvent;
    if sync.highestEventTick.Some? {
      DetectionSettles(s.sync, e, now);
      forall i | 0 <= i < |q| && q[i].event.tick.Some?
        ensures NumericTick(q[i]) <= sync.highestEventTick.value + TICK_RESET_THRESHOLD_S
      {
        assert q[i] in q;
      }
    }
  }

  lemma DeliverKeepsQueue(env: Env, s: Server, e: Event, now: real)
    requires QueueInv(s)
    ensures QueueInv(DeliverTo(env, s, e, now))
  {
    var sync := OnIngestEvent(s.sync, e, now);
    var it := Numbered(env, s, e, now);
    EnqueueKeepsOrder(env.cfg, sync, s.buf, it, now);
    EnqueueKeepsSorted(env.cfg, sync, s.buf, it, now);
    EnqueueBoundsQueue(env.cfg, sync, s.buf, it, now);
    DeliverKeepsHighWater(env, s, e, now);
    var q := Enqueue(env.cfg, sync, s.buf, it, now).queue;
    forall i | 0 <= i < |q| ensures q[i].arrival < |s.accepted| + 1 {
      assert q[i] in q;
    }
  }

  /** Of the sync state the invariant reads the high-water mark alone. */
  lemma SamplingKeepsQueue(s: Server, sync: ServerSync)
    requires QueueInv(s) && sync.highestEventTick == s.sync.highestEventTick
    ensures QueueInv(s.(sync := sync))
  {
  }

  lemma DriverKeepsQueue(env: Env, s: Server, now: real)
    requires QueueInv(s)
    ensures QueueInv(s.(buf := ReleaseDue(env.cfg, s.sync, s.buf, now)))
  {
    var q := ReleaseDue(env.cfg, s.sync, s.buf, now).queue;
    SubQueueKeeps(s.sync, s.buf.queue, q);
  }

  lemma NextKeepsQueue(env: Env, s: Server, a: Action)
    requires QueueInv(s)
    ensures QueueInv(Next(env, s, a))
  {
    hide DeliverTo, EmitClock, ReleaseDue, QueueInv;
    match a
    case Deliver(e, now) => DeliverKeepsQueue(env, s, e, now);
    case StartSample(reason, now) => SamplingKeepsQueue(s, HltvSync.StartSample(s.sync, reason, now));
    case SampleOk(status) =>
      var sync := HltvSync.SampleOk(s.sync, status);
      SamplingKeepsQueue(s, sync);
      EmitClockKeepsQueue(env, s.(sync := sync));
    case SampleFail(message) =>
      var sync := HltvSync.SampleFail(env.cfg, s.sync, message);
      SamplingKeepsQueue(s, sync);
      EmitClockKeepsQueue(env, s.(sync := sync));
    case Calibrate(offsetMs) =>
      var sync := SetCalibration(s.sync, offsetMs);
      SamplingKeepsQueue(s, sync);
      EmitClockKeepsQueue(env, s.(sync := sync));
    case DriverTick(now) => DriverKeepsQueue(env, s, now);
  }

  /** Over every run both queues stay ordered, the detectors agree to within a threshold, and the
      drain releases nothing before its instant. */
  lemma {:induction false} RunKeepsQueue(env: Env, states: seq<Server>, acts: seq<Action>, k: nat)
    requires RunsFromStart(env, states, acts) && k < |states|
    ensures QueueInv(states[k])
  {
    hide Next;
    if k > 0 {
      hide QueueInv;
      RunKeepsQueue(env, states, acts, k - 1);
      NextKeepsQueue(env, states[k - 1], acts[k - 1]);
    }
  }

  lemma QueueHalfOfLog(cfg: Config, sync: ServerSync, b: ServerBuffer, now: real, k: nat)
    requires |b.fired| <= k < |ReleaseQueue(cfg, sync, b, now).fired|
    ensures b.draining == [] == ReleaseQueue(cfg, sync, b, now).draining
    ensures DrainsOf(ReleaseQueue(cfg, sync, b, now).fired[..k]) == DrainsOf(b.fired)
  {
    var head := FireQueued(b.queue[..k - |b.fired|], now);
    assert ReleaseQueue(cfg, sync, b, now).fired[..k] == b.fired + head;
    DrainsOfAppend(b.fired, head);
    DrainsOfQueued(b.queue[..k - |b.fired|], now);
  }

  lemma DrainHalfOfLog(b: ServerBuffer, now: real, cfg: Config, sync: ServerSync, k: nat)
    requires var fired := ReleaseDue(cfg, sync, b, now).fired;
      |b.fired| <= k < |fired| && fired[k].releaseAt.None?
    ensures k >= |ReleaseDrain(b, now).fired|
  {
    var mid := ReleaseDrain(b, now);
    assert ReleaseQueue(cfg, sync, mid, now).fired[..|mid.fired|] == mid.fired;
  }

  lemma DrainedBefore(b: ServerBuffer, cfg: Config, sync: ServerSync, now: real, k: nat)
    requires var fired := ReleaseDue(cfg, sync, b, now).fired;
      |b.fired| <= k < |fired| && fired[k].releaseAt.None?
    ensures ReleaseDue(cfg, sync, b, now).draining == []
    ensures multiset(DrainsOf(ReleaseDue(cfg, sync, b, now).fired[..k]))
         == multiset(b.draining) + multiset(DrainsOf(b.fired))
  {
    var mid := ReleaseDrain(b, now);
    ReleaseDrainLedger(b, now);
    DrainHalfOfLog(b, now, cfg, sync, k);
    QueueHalfOfLog(cfg, sync, mid, now, k);
  }

  /** Whatever `next` fires from the main queue after `s`, it fires with the drain empty and after
      everything ever moved to the drain has fired. */
  ghost predicate OldTailFirst(s: Server, next: Server) {
    forall k :: |s.buf.fired| <= k < |next.buf.fired| && next.buf.fired[k].releaseAt.None? ==>
      next.buf.draining == [] && multiset(DrainsOf(next.buf.fired[..k])) == multiset(s.drained)
  }

  lemma OnlyDriverFires(env: Env, s: Server, a: Action)
    requires !a.DriverTick?
    ensures Next(env, s, a).buf.fired == s.buf.fired
  {
  }

  lemma RunFiresOldTailFirst(env: Env, states: seq<Server>, acts: seq<Action>, k: nat)
    requires RunsFromStart(env, states, acts) && k < |acts|
    ensures OldTailFirst(states[k], states[k + 1])
  {
    var s, next, a := states[k], states[k + 1], acts[k];
    if a.DriverTick? {
      RunConserves(env, states, acts, k);
      forall i | |s.buf.fired| <= i < |next.buf.fired| && next.buf.fired[i].releaseAt.None?
        ensures next.buf.draining == [] && multiset(DrainsOf(next.buf.fired[..i])) == multiset(s.drained)
      {
        DrainedBefore(s.buf, env.cfg, s.sync, a.now, i);
      }
    } else {
      OnlyDriverFires(env, s, a);
    }
  }
}
