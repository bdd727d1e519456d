/** The order of levels in the fired log: an event of an earlier level fires before those of a later one, unless its
    post stalled past that level's first, or the later event's own post was late. */
module HltvSequence {
  import opened Wrappers
  import opened HltvSync
  import opened HltvDelayBuffer
  import opened HltvPipeline
  import opened HltvLaws
  import opened HltvBoundary
  import opened HltvAccuracy
  import opened HltvLateness
  import opened HltvEpochs
  import opened HltvOrderly
  import opened HltvTimely

  /** Some post of level `a`, or of a later one, came before it. */
  ghost predicate Stalled(w: World, a: nat, y: BufferedEvent) { exists m: nat :: m < y.arrival && w.index(m) >= a }

  /** Posted later than it happened by enough to fall behind `y`, whose tick its level had reached by then. */
  ghost predicate FallsBehind(w: World, x: BufferedEvent, y: BufferedEvent) {
    NumericTick(x) < NumericTick(y) <= GameTime(LevelOf(w, x.arrival), x.enqueuedAt)
  }

  /** `x` is of a later level than `y`, although the post of `y` did not stall past the first of that level and,
      unless no tail is ever left queued, the post of `x` was not late. */
  ghost predicate Overtakes(w: World, cleared: bool, x: BufferedEvent, y: BufferedEvent) {
    && IndexOf(w, x) > IndexOf(w, y) && !Stalled(w, IndexOf(w, x), y)
    && (cleared || !FallsBehind(w, x, y))
  }

  /** When a level's first post comes nothing of a level before the current one is still held; and, if `cleared`,
      the queue it finds is empty or evicted. At the first change nothing can be. */
  ghost predicate TurnsCleanly(w: World, cleared: bool, s: Server, a: Action) {
    a.Deliver? && Opens(w, |s.accepted|) ==>
      && OnlyCurrent(w, s) && (forall x :: x in s.buf.draining ==> IndexOf(w, x.item) == CurrentIn(w, s))
      && (cleared ==> s.buf.queue == [] || TailFarAbove(s.buf.queue, a.event.tick.GetOr(0.0)))
  }

  predicate HeldIn(b: ServerBuffer, y: BufferedEvent) { y in b.queue || y in Items(b.draining) }

  ghost predicate Numbering(accepted: seq<BufferedEvent>) {
    forall i :: 0 <= i < |accepted| ==> accepted[i].arrival == i
  }

  /** Every level so far is the current one or no later than the one before it. */
  ghost predicate LevelsSeen(w: World, n: nat) {
    forall i: nat :: i < n ==> w.index(i) == Current(w, n) || w.index(i) <= Previous(w, n)
  }

  /** What is held of a level before the previous one stalled past that. */
  ghost predicate HeldInv(w: World, p: nat, b: ServerBuffer) {
    forall y :: HeldIn(b, y) && IndexOf(w, y) < p ==> Stalled(w, p, y)
  }

  /** What is queued of a level before the current one was left there when that opened, reached by it. */
  ghost predicate LeftInv(w: World, cleared: bool, c: nat, accepted: seq<BufferedEvent>, q: seq<BufferedEvent>) {
    forall y :: y in q && IndexOf(w, y) < c ==>
      && !cleared
      && forall z :: z in accepted && IndexOf(w, z) == c ==> NumericTick(y) <= GameTime(w.level(c), z.enqueuedAt)
  }

  ghost predicate LogInv(w: World, cleared: bool, b: ServerBuffer) {
    && (forall f, y :: f in b.fired && HeldIn(b, y) ==> !Overtakes(w, cleared, f.item, y))
    && LogOrdered(w, cleared, b.fired)
  }

  ghost predicate LogOrdered(w: World, cleared: bool, log: seq<Fired>) {
    forall i, j :: 0 <= i < j < |log| ==> !Overtakes(w, cleared, log[i].item, log[j].item)
  }

  ghost predicate SequenceInv(w: World, cleared: bool, s: Server) {
    && Numbering(s.accepted) && LevelsSeen(w, |s.accepted|)
    && HeldInv(w, PreviousIn(w, s), s.buf)
    && LeftInv(w, cleared, CurrentIn(w, s), s.accepted, s.buf.queue)
    && LogInv(w, cleared, s.buf)
  }

  lemma {:induction false} CurrentSeen(w: World, n: nat)
    requires FromFirst(w) && n > 0
    ensures exists m: nat :: m < n && w.index(m) == Current(w, n)
  {
    if Opens(w, n - 1) || n == 1 {
      assert w.index(n - 1) == Current(w, n);
    } else {
      CurrentSeen(w, n - 1);
    }
  }

  lemma StalledLess(w: World, a: nat, b: nat, y: BufferedEvent)
    requires a <= b && Stalled(w, b, y)
    ensures Stalled(w, a, y)
  {
    var m: nat :| m < y.arrival && w.index(m) >= b;
  }

  // ---- Posts ----

  /** Everything held, with multiplicity. */
  ghost function HeldAll(b: ServerBuffer): multiset<BufferedEvent> { multiset(b.queue) + multiset(Items(b.draining)) }

  lemma HeldInAll(b: ServerBuffer, y: BufferedEvent)
    ensures HeldIn(b, y) <==> y in HeldAll(b)
  {
  }

  lemma Cancel(a: multiset<BufferedEvent>, b: multiset<BufferedEvent>, c: multiset<BufferedEvent>)
    requires a + c == b + c
    ensures a == b
  {
    forall y ensures a[y] == b[y] {
      assert (a + c)[y] == (b + c)[y];
    }
  }

  /** What is held follows what is held or fired, as long as nothing fires. */
  lemma HeldFollows(b: ServerBuffer, r: ServerBuffer, more: multiset<BufferedEvent>)
    requires Held(r) == Held(b) + more && r.fired == b.fired
    ensures HeldAll(r) == HeldAll(b) + more
  {
    var fired := multiset(FiredItems(b.fired));
    assert HeldAll(r) + fired == HeldAll(b) + more + fired;
    Cancel(HeldAll(r), HeldAll(b) + more, fired);
  }

  lemma DeliverHolds(env: Env, s: Server, e: Event, now: real)
    ensures DeliverTo(env, s, e, now).buf.fired == s.buf.fired
    ensures forall y :: HeldIn(DeliverTo(env, s, e, now).buf, y) <==> HeldIn(s.buf, y) || y == Numbered(env, s, e, now)
  {
    var seen, it := OnIngestEvent(s.sync, e, now), Numbered(env, s, e, now);
    EnqueueHolds(env.cfg, seen, s.buf, it, now);
    EnqueueKeepsLog(env.cfg, seen, s.buf, it, now);
    var r := Enqueue(env.cfg, seen, s.buf, it, now);
    assert DeliverTo(env, s, e, now).buf == r;
    hide OnIngestEvent, Enqueue, Moved, DeliverTo, Held, HeldIn, Items;
    HeldFollows(s.buf, r, multiset{it});
    forall y ensures HeldIn(r, y) <==> HeldIn(s.buf, y) || y == it {
      HeldInAll(r, y);
      HeldInAll(s.buf, y);
    }
  }

  lemma LevelsGrow(w: World, s: Server, e: Event, now: real)
    requires LevelsSeen(w, |s.accepted|) && PostOk(w, s, e, now)
    ensures LevelsSeen(w, |s.accepted| + 1)
  {
    var n := |s.accepted|;
    PostFacts(w, s, e, now);
    hide PostOk, OpeningOk;
    forall i: nat | i < n + 1 ensures w.index(i) == Current(w, n + 1) || w.index(i) <= Previous(w, n + 1) {
      if Opens(w, n) && i < n {
        IndexBelowCurrent(w, i, n);
      } else if i == n && ComesLate(w, n) {
        var k: nat :| k < n && w.index(k) == w.index(n);
      }
    }
  }

  /** A new post overtakes nothing and is overtaken by nothing fired before it. */
  lemma PostIsBehind(w: World, cleared: bool, s: Server, it: BufferedEvent, f: Fired)
    requires Conserved(s) && Numbering(s.accepted) && f in s.buf.fired && it.arrival == |s.accepted|
    ensures !Overtakes(w, cleared, f.item, it)
  {
    HeldIsAccepted(s);
    assert f.item.arrival < it.arrival && w.index(f.item.arrival) >= IndexOf(w, f.item);
  }

  lemma DeliverKeepsHeld(env: Env, w: World, cleared: bool, s: Server, e: Event, now: real)
    requires FromFirst(w) && PostOk(w, s, e, now) && SequenceInv(w, cleared, s)
    requires TurnsCleanly(w, cleared, s, Deliver(e, now))
    ensures HeldInv(w, Previous(w, |s.accepted| + 1), DeliverTo(env, s, e, now).buf)
  {
    var it, r, n := Numbered(env, s, e, now), DeliverTo(env, s, e, now), |s.accepted|;
    PreviousBelow(w, n);
    DeliverHolds(env, s, e, now);
    hide DeliverTo, PostOk;
    forall y | HeldIn(r.buf, y) && IndexOf(w, y) < Previous(w, n + 1) ensures Stalled(w, Previous(w, n + 1), y) {
      if Opens(w, n) {
        ItemsAreOf(w, s.buf.draining, Current(w, n), y);
      } else if y == it {
        CurrentSeen(w, n);
        var m: nat :| m < n && w.index(m) == Current(w, n);
      }
    }
  }

  lemma ItemsAreOf(w: World, d: seq<DrainItem>, c: nat, y: BufferedEvent)
    requires y in Items(d) && forall x :: x in d ==> IndexOf(w, x.item) == c
    ensures IndexOf(w, y) == c
  {
    var i :| 0 <= i < |d| && d[i].item == y;
    assert d[i] in d;
  }

  /** What is queued at an opening, itself apart, the new level has reached. */
  lemma OpeningLeaves(env: Env, w: World, cleared: bool, s: Server, e: Event, now: real)
    requires Sensible(env.cfg, w) && OrderInv(w, s) && QueueOrdered(s.buf.queue) && PostOk(w, s, e, now)
    requires Numbering(s.accepted) && Opens(w, |s.accepted|) && TurnsCleanly(w, cleared, s, Deliver(e, now))
    ensures
      var n, r := |s.accepted|, DeliverTo(env, s, e, now);
      LeftInv(w, cleared, w.index(n), s.accepted + [Numbered(env, s, e, now)], r.buf.queue)
  {
    var it, q, n := Numbered(env, s, e, now), DeliverTo(env, s, e, now).buf.queue, |s.accepted|;
    EnqueueLeaves(env, w, s, e, now);
    EmptyTakes(env, s, e, now);
    assert cleared ==> forall y :: y in q ==> y == it by {
      PostFacts(w, s, e, now);
      hide DeliverTo, PostOk, OpeningOk, OrderInv, Sensible;
    }
    hide DeliverTo, PostOk, OrderInv, Sensible, QueueOrdered, TailFarAbove;
    forall z | z in s.accepted + [it] && IndexOf(w, z) == w.index(n) ensures z.enqueuedAt == now {
      if z != it {
        IndexBelowCurrent(w, z.arrival, n);
      }
    }
  }

  /** A post of a level already open finds what was left reached, and leaves it so. */
  lemma LaterLeaves(env: Env, w: World, cleared: bool, s: Server, e: Event, now: real)
    requires Sensible(env.cfg, w) && FromFirst(w) && OrderInv(w, s) && QueueOrdered(s.buf.queue)
    requires PostOk(w, s, e, now) && Numbering(s.accepted) && !Opens(w, |s.accepted|)
    requires LeftInv(w, cleared, CurrentIn(w, s), s.accepted, s.buf.queue)
    ensures
      var r := DeliverTo(env, s, e, now);
      LeftInv(w, cleared, CurrentIn(w, s), s.accepted + [Numbered(env, s, e, now)], r.buf.queue)
  {
    var it, q, c := Numbered(env, s, e, now), DeliverTo(env, s, e, now).buf.queue, CurrentIn(w, s);
    EnqueueLeaves(env, w, s, e, now);
    assert forall x :: x in s.accepted ==> x.enqueuedAt <= now by {
      PostFacts(w, s, e, now);
    }
    assert ComesLate(w, |s.accepted|) ==> q == s.buf.queue;
    hide DeliverTo, PostOk, OrderInv, Sensible, QueueOrdered, FromFirst, Current;
    if s.accepted != [] {
      SomeOfCurrent(w, s);
      var z0 :| z0 in s.accepted && IndexOf(w, z0) == c;
      assert z0.enqueuedAt <= now;
    }
  }

  lemma DeliverKeepsLeft(env: Env, w: World, cleared: bool, s: Server, e: Event, now: real)
    requires Sensible(env.cfg, w) && FromFirst(w) && OrderInv(w, s) && QueueOrdered(s.buf.queue)
    requires PostOk(w, s, e, now) && SequenceInv(w, cleared, s) && TurnsCleanly(w, cleared, s, Deliver(e, now))
    ensures
      var r := DeliverTo(env, s, e, now);
      LeftInv(w, cleared, Current(w, |s.accepted| + 1), s.accepted + [Numbered(env, s, e, now)], r.buf.queue)
  {
    var n := |s.accepted|;
    assert Current(w, n + 1) == if Opens(w, n) then w.index(n) else Current(w, n);
    hide DeliverTo, PostOk, OrderInv, Sensible, QueueOrdered, LeftInv, HeldInv, LogInv, TurnsCleanly, LevelsSeen;
    if Opens(w, n) {
      OpeningLeaves(env, w, cleared, s, e, now);
    } else {
      LaterLeaves(env, w, cleared, s, e, now);
    }
  }

  /** Into an empty queue nothing but the post goes. */
  lemma EmptyTakes(env: Env, s: Server, e: Event, now: real)
    ensures s.buf.queue == [] ==>
              forall y :: y in DeliverTo(env, s, e, now).buf.queue ==> y == Numbered(env, s, e, now)
  {
    var it, seen := Numbered(env, s, e, now), OnIngestEvent(s.sync, e, now);
    hide OnIngestEvent, OldEpochTick, DrainTail;
    InsertByTickMembers(s.buf.queue, it);
    DrainTailFrame(env.cfg, seen, s.buf, [it]);
  }

  lemma SomeOfCurrent(w: World, s: Server)
    requires FromFirst(w) && Numbering(s.accepted) && s.accepted != []
    ensures exists x :: x in s.accepted && IndexOf(w, x) == CurrentIn(w, s)
  {
    CurrentSeen(w, |s.accepted|);
    var m: nat :| m < |s.accepted| && w.index(m) == CurrentIn(w, s);
    assert s.accepted[m] in s.accepted;
  }

  lemma DeliverKeepsLog(env: Env, w: World, cleared: bool, s: Server, e: Event, now: real)
    requires Conserved(s) && Numbering(s.accepted) && LogInv(w, cleared, s.buf)
    ensures LogInv(w, cleared, DeliverTo(env, s, e, now).buf)
  {
    var it, r := Numbered(env, s, e, now), DeliverTo(env, s, e, now);
    DeliverHolds(env, s, e, now);
    assert it.arrival == |s.accepted|;
    hide DeliverTo, Numbered, Conserved, Overtakes, HeldIn, LogOrdered, Numbering;
    forall f, y | f in r.buf.fired && HeldIn(r.buf, y) ensures !Overtakes(w, cleared, f.item, y) {
      if y == it {
        PostIsBehind(w, cleared, s, it, f);
      }
    }
  }

  lemma OneMoreNumbered(s: Server, it: BufferedEvent)
    requires Numbering(s.accepted) && it.arrival == |s.accepted|
    ensures Numbering(s.accepted + [it])
  {
  }

  lemma DeliverKeepsSequence(env: Env, w: World, cleared: bool, s: Server, e: Event, now: real)
    requires Sensible(env.cfg, w) && FromFirst(w) && OrderInv(w, s) && QueueOrdered(s.buf.queue) && Conserved(s)
    requires PostOk(w, s, e, now) && SequenceInv(w, cleared, s) && TurnsCleanly(w, cleared, s, Deliver(e, now))
    ensures SequenceInv(w, cleared, DeliverTo(env, s, e, now))
  {
    DeliverAccepts(env, s, e, now);
    LevelsGrow(w, s, e, now);
    DeliverKeepsHeld(env, w, cleared, s, e, now);
    DeliverKeepsLeft(env, w, cleared, s, e, now);
    DeliverKeepsLog(env, w, cleared, s, e, now);
    OneMoreNumbered(s, Numbered(env, s, e, now));
    hide DeliverTo, OnIngestEvent, PostOk, OrderInv, Conserved, HeldInv, LeftInv, LevelsSeen, LogInv, Sensible,
         QueueOrdered, TurnsCleanly, Numbering, Numbered;
  }

  // ---- Emissions ----

  lemma EmissionHolds(env: Env, s: Server)
    ensures forall y :: HeldIn(EmitClock(env, s).buf, y) ==> HeldIn(s.buf, y)
  {
    var r := EmitClock(env, s);
    EmitThins(env, s);
    assert Held(r.buf) == Held(s.buf) by {
      if s.sync.clock.Some? {
        ReleaseStrandedHolds(env.cfg, s.sync, s.buf, s.sync.clock.value.basis.activeTime);
      }
      hide ReleaseStranded, Held;
    }
    hide EmitClock, Held, HeldIn, Items;
    HeldFollows(s.buf, r.buf, multiset{});
    forall y | HeldIn(r.buf, y) ensures HeldIn(s.buf, y) {
      HeldInAll(r.buf, y);
      HeldInAll(s.buf, y);
    }
  }

  lemma EmissionKeepsSequence(env: Env, w: World, cleared: bool, s: Server)
    requires SequenceInv(w, cleared, s)
    ensures SequenceInv(w, cleared, EmitClock(env, s))
  {
    EmitThins(env, s);
    EmissionHolds(env, s);
    hide EmitClock, Overtakes, Stalled, Current, Previous, HeldIn;
  }

  // ---- Fires ----

  /** Firing what is ahead of the rest extends the log in order. */
  lemma FiringExtends(w: World, cleared: bool, b: ServerBuffer, fires: seq<Fired>, r: ServerBuffer)
    requires LogInv(w, cleared, b) && r.fired == b.fired + fires && LogOrdered(w, cleared, fires)
    requires forall f :: f in fires ==> HeldIn(b, f.item)
    requires forall y :: HeldIn(r, y) ==> HeldIn(b, y)
    requires forall f, y :: f in fires && HeldIn(r, y) ==> !Overtakes(w, cleared, f.item, y)
    ensures LogInv(w, cleared, r)
  {
    hide Overtakes, HeldIn;
    var n := |b.fired|;
    forall i, j | 0 <= i < j < |r.fired| ensures !Overtakes(w, cleared, r.fired[i].item, r.fired[j].item) {
      if j < n {
        assert r.fired[i] == b.fired[i] && r.fired[j] == b.fired[j];
      } else if i < n {
        assert r.fired[i] == b.fired[i] && r.fired[i] in b.fired;
        assert r.fired[j] == fires[j - n] && fires[j - n] in fires;
      } else {
        assert r.fired[i] == fires[i - n] && r.fired[j] == fires[j - n];
      }
    }
  }

  /** An event of an ended level overtakes nothing held. */
  lemma EndedOvertakesNothing(w: World, cleared: bool, s: Server, x: BufferedEvent, y: BufferedEvent)
    requires HeldInv(w, PreviousIn(w, s), s.buf) && HeldIn(s.buf, y)
    requires IndexOf(w, x) == 0 || IndexOf(w, x) <= PreviousIn(w, s)
    ensures !Overtakes(w, cleared, x, y)
  {
    if IndexOf(w, y) < IndexOf(w, x) {
      StalledLess(w, IndexOf(w, x), PreviousIn(w, s), y);
    }
  }

  lemma DrainIsEnded(w: World, s: Server, x: DrainItem)
    requires Conserved(s) && DrainedOld(w, s) && Numbering(s.accepted) && LevelsSeen(w, |s.accepted|)
    requires x in s.buf.draining
    ensures IndexOf(w, x.item) == 0 || IndexOf(w, x.item) <= PreviousIn(w, s)
  {
    HeldIsAccepted(s);
    var i :| 0 <= i < |s.accepted| && s.accepted[i] == x.item;
    assert x in multiset(s.buf.draining) && x in multiset(s.drained);
    hide Conserved, Current, Previous;
  }

  lemma ItemAt(d: seq<DrainItem>, i: nat)
    requires i < |d|
    ensures Items(d)[i] == d[i].item && d[i].item in Items(d) && d[i] in d
  {
    assert Items(d)[i] in Items(d);
  }

  lemma DrainFires(b: ServerBuffer, now: real)
    ensures
      var fires := FireDrained(b.draining[..DueCount(b.draining, now)], now);
      && ReleaseDrain(b, now).fired == b.fired + fires
      && (forall f :: f in fires ==> exists x :: x in b.draining && x.item == f.item && HeldIn(b, f.item))
  {
    var d, n := b.draining, DueCount(b.draining, now);
    var fires := FireDrained(d[..n], now);
    assert forall i :: 0 <= i < n ==> fires[i].item == d[i].item;
    hide DueCount, FireDrained, Items;
    forall f | f in fires ensures exists x :: x in d && x.item == f.item && HeldIn(b, f.item) {
      var i :| 0 <= i < n && fires[i] == f;
      ItemAt(d, i);
    }
  }

  lemma DrainHolds(b: ServerBuffer, now: real)
    ensures forall y :: HeldIn(ReleaseDrain(b, now), y) ==> HeldIn(b, y)
  {
    var d, n := b.draining, DueCount(b.draining, now);
    hide DueCount, FireDrained, Items;
    forall y | y in Items(d[n..]) ensures y in Items(d) {
      InItems(d[n..], y);
      var i :| 0 <= i < |d[n..]| && d[n..][i].item == y;
      ItemAt(d, n + i);
    }
  }

  lemma InItems(d: seq<DrainItem>, y: BufferedEvent)
    requires y in Items(d)
    ensures exists i :: 0 <= i < |d| && d[i].item == y
  {
  }

  lemma DrainKeepsSequence(w: World, cleared: bool, s: Server, now: real)
    requires Conserved(s) && DrainedOld(w, s) && SequenceInv(w, cleared, s)
    ensures SequenceInv(w, cleared, s.(buf := ReleaseDrain(s.buf, now)))
  {
    var n, r := DueCount(s.buf.draining, now), ReleaseDrain(s.buf, now);
    var fires := FireDrained(s.buf.draining[..n], now);
    DrainFires(s.buf, now);
    DrainHolds(s.buf, now);
    assert r.queue == s.buf.queue;
    hide Overtakes, HeldIn, Conserved, DrainedOld, Current, Previous, DueCount, LevelsSeen, ReleaseDrain, FireDrained;
    forall f, y | f in fires && HeldIn(s.buf, y) ensures !Overtakes(w, cleared, f.item, y) {
      var x :| x in s.buf.draining && x.item == f.item;
      DrainIsEnded(w, s, x);
      EndedOvertakesNothing(w, cleared, s, f.item, y);
    }
    assert LogOrdered(w, cleared, fires) by {
      forall i, j | 0 <= i < j < |fires| ensures !Overtakes(w, cleared, fires[i].item, fires[j].item) {
        assert fires[i] in fires && fires[j] in fires;
      }
    }
    FiringExtends(w, cleared, s.buf, fires, r);
  }

  /** In the queue an event of the current level is behind one of an earlier level, unless its post was late. */
  lemma QueueOvertakesNothing(w: World, cleared: bool, s: Server, i: nat, j: nat)
    requires QueueInv(s) && Conserved(s) && SequenceInv(w, cleared, s) && i < j < |s.buf.queue|
    ensures !Overtakes(w, cleared, s.buf.queue[i], s.buf.queue[j])
  {
    var q := s.buf.queue;
    var x, y := q[i], q[j];
    assert Before(x, y) && x in q && y in q && HeldIn(s.buf, y);
    HeldIsAccepted(s);
    var k :| 0 <= k < |s.accepted| && s.accepted[k] == x;
    hide Conserved, QueueOrdered, NearArrivalOrder, BelowHighWater, Current, Previous, LogInv;
    if IndexOf(w, x) == CurrentIn(w, s) {
      assert IndexOf(w, y) < IndexOf(w, x) && x.arrival < y.arrival ==> Stalled(w, IndexOf(w, x), y);
    } else {
      EndedOvertakesNothing(w, cleared, s, x, y);
    }
  }

  lemma QueueFires(cfg: Config, sync: ServerSync, b: ServerBuffer, now: real)
    requires b.draining == []
    ensures
      var m := ReadyCount(cfg, sync, b.queue, now);
      var r := ReleaseQueue(cfg, sync, b, now);
      && r.queue == b.queue[m..] && r.draining == [] && r.fired == b.fired + FireQueued(b.queue[..m], now)
      && (forall y :: HeldIn(r, y) ==> y in b.queue[m..])
  {
    hide ReadyCount;
    assert Items([]) == [];
  }

  /** A prefix of a queue that nothing in it overtakes is fired in order, ahead of the rest. */
  lemma PrefixFires(w: World, cleared: bool, b: ServerBuffer, m: nat, now: real)
    requires m <= |b.queue| && forall i, j :: 0 <= i < j < |b.queue| ==> !Overtakes(w, cleared, b.queue[i], b.queue[j])
    ensures LogOrdered(w, cleared, FireQueued(b.queue[..m], now))
    ensures forall f :: f in FireQueued(b.queue[..m], now) ==> HeldIn(b, f.item)
    ensures forall f, y :: f in FireQueued(b.queue[..m], now) && y in b.queue[m..] ==> !Overtakes(w, cleared, f.item, y)
  {
    hide Overtakes;
    var q, fires := b.queue, FireQueued(b.queue[..m], now);
    forall f, y | f in fires && y in q[m..] ensures !Overtakes(w, cleared, f.item, y) {
      var i :| 0 <= i < m && fires[i] == f;
      var j :| 0 <= j < |q| - m && q[m..][j] == y;
      assert f.item == q[i] && y == q[m + j];
    }
  }

  lemma QueueKeepsSequence(cfg: Config, w: World, cleared: bool, s: Server, now: real)
    requires QueueInv(s) && Conserved(s) && SequenceInv(w, cleared, s)
    ensures SequenceInv(w, cleared, s.(buf := ReleaseQueue(cfg, s.sync, s.buf, now)))
  {
    var q, r := s.buf.queue, ReleaseQueue(cfg, s.sync, s.buf, now);
    forall i, j: nat | 0 <= i < j < |q| ensures !Overtakes(w, cleared, q[i], q[j]) {
      QueueOvertakesNothing(w, cleared, s, i, j);
    }
    hide Overtakes, HeldIn, Conserved, QueueInv, Current, Previous, ReadyCount, LevelsSeen, FireQueued, LogOrdered,
         LogInv;
    if s.buf.draining == [] {
      var m := ReadyCount(cfg, s.sync, q, now);
      QueueFires(cfg, s.sync, s.buf, now);
      PrefixFires(w, cleared, s.buf, m, now);
      QueuedIsHeld(s.buf, m);
      hide ReleaseQueue;
      FiringExtends(w, cleared, s.buf, FireQueued(q[..m], now), r);
      assert forall y :: y in r.queue ==> y in q;
    }
  }

  lemma QueuedIsHeld(b: ServerBuffer, m: nat)
    requires m <= |b.queue|
    ensures forall y :: y in b.queue[m..] ==> HeldIn(b, y)
  {
  }

  lemma DrainLeavesInv(s: Server, now: real)
    requires QueueInv(s) && Conserved(s)
    ensures QueueInv(s.(buf := ReleaseDrain(s.buf, now))) && Conserved(s.(buf := ReleaseDrain(s.buf, now)))
  {
    ReleaseDrainHolds(s.buf, now);
    ReleaseDrainLedger(s.buf, now);
    hide Held, DrainsOf, QueueOrdered, NearArrivalOrder, BelowHighWater;
  }

  lemma StepKeepsSequence(env: Env, w: World, cleared: bool, s: Server, a: Action)
    requires Sensible(env.cfg, w) && FromFirst(w) && OrderInv(w, s) && DrainedOld(w, s) && QueueInv(s) && Conserved(s)
    requires Orderly(w, s, a) && SequenceInv(w, cleared, s) && TurnsCleanly(w, cleared, s, a)
    ensures SequenceInv(w, cleared, Next(env, s, a))
  {
    hide DeliverTo, EmitClock, ReleaseDrain, ReleaseQueue, PostOk, ReplyOk, OrderInv, DrainedOld, Conserved, Sensible,
         LevelsSeen, HeldInv, LeftInv, LogInv, Numbering, TurnsCleanly;
    match a
    case Deliver(e, now) => DeliverKeepsSequence(env, w, cleared, s, e, now);
    case StartSample(_, _) =>
    case SampleOk(status) =>
      EmissionKeepsSequence(env, w, cleared, s.(sync := HltvSync.SampleOk(s.sync, status)));
    case SampleFail(message) =>
      EmissionKeepsSequence(env, w, cleared, s.(sync := HltvSync.SampleFail(env.cfg, s.sync, message)));
    case Calibrate(offsetMs) => EmissionKeepsSequence(env, w, cleared, s.(sync := SetCalibration(s.sync, offsetMs)));
    case DriverTick(now) =>
      DrainKeepsSequence(w, cleared, s, now);
      DrainLeavesInv(s, now);
      QueueKeepsSequence(env.cfg, w, cleared, s.(buf := ReleaseDrain(s.buf, now)), now);
  }

  lemma {:induction false} RunKeepsSequence(
      env: Env, w: World, cleared: bool, states: seq<Server>, acts: seq<Action>, k: nat)
    requires RunsFromStart(env, states, acts) && k < |states| && Sensible(env.cfg, w) && FromFirst(w)
    requires forall i :: 0 <= i < k ==> Orderly(w, states[i], acts[i]) && TurnsCleanly(w, cleared, states[i], acts[i])
    ensures SequenceInv(w, cleared, states[k])
  {
    hide Next, Orderly, TurnsCleanly, FromFirst, Sensible, OrderInv, CleanInv, DrainedOld, QueueInv, Conserved, Worldly,
         Cause;
    if k > 0 {
      RunKeepsSequence(env, w, cleared, states, acts, k - 1);
      RunIsOrderly(env, w, states, acts, k - 1);
      RunKeepsQueue(env, states, acts, k - 1);
      RunConserves(env, states, acts, k - 1);
      hide SequenceInv;
      StepKeepsSequence(env, w, cleared, states[k - 1], acts[k - 1]);
    }
  }

  /** Across any number of changes of level on one map, an event that fires after one of a later level had its post
      stall past the first of that level; or, unless the tail is evicted at every change, the other's post was late
      by more than their ticks are apart. */
  lemma LevelsFireInOrder(
      env: Env, w: World, cleared: bool, states: seq<Server>, acts: seq<Action>, k: nat, i: nat, j: nat)
    requires RunsFromStart(env, states, acts) && k < |states| && Sensible(env.cfg, w) && FromFirst(w)
    requires forall i :: 0 <= i < k ==> Orderly(w, states[i], acts[i]) && TurnsCleanly(w, cleared, states[i], acts[i])
    requires i < j < |states[k].buf.fired|
    ensures
      var x, y := states[k].buf.fired[i].item, states[k].buf.fired[j].item;
      IndexOf(w, x) > IndexOf(w, y) ==>
        Stalled(w, IndexOf(w, x), y) || (!cleared && FallsBehind(w, x, y))
  {
    hide Next, Orderly, TurnsCleanly, FromFirst, Sensible, Stalled, FallsBehind;
    RunKeepsSequence(env, w, cleared, states, acts, k);
    assert !Overtakes(w, cleared, states[k].buf.fired[i].item, states[k].buf.fired[j].item);
  }

  // ---- Levels that last turn cleanly ----

  lemma {:induction false} NumberedOnce(accepted: seq<BufferedEvent>, y: BufferedEvent)
    requires Numbering(accepted)
    ensures multiset(accepted)[y] <= 1
  {
    if accepted != [] {
      var n := |accepted| - 1;
      NumberedOnce(accepted[..n], y);
      assert accepted == accepted[..n] + [accepted[n]];
      assert y in accepted[..n] ==> y.arrival < n;
    }
  }

  lemma FiredIsNotHeld(s: Server, y: BufferedEvent)
    requires Conserved(s) && Numbering(s.accepted) && y in FiredItems(s.buf.fired)
    ensures !HeldIn(s.buf, y)
  {
    NumberedOnce(s.accepted, y);
    hide Numbering;
    assert Held(s.buf)[y] >= multiset(s.buf.queue)[y] + multiset(Items(s.buf.draining))[y] + 1;
  }

  lemma {:induction false} RunNumbers(env: Env, states: seq<Server>, acts: seq<Action>, k: nat)
    requires RunsFromStart(env, states, acts) && k < |states|
    ensures Numbering(states[k].accepted)
  {
    hide Next;
    if k > 0 {
      RunNumbers(env, states, acts, k - 1);
      StepNumbers(env, states[k - 1], acts[k - 1]);
    }
  }

  lemma StepNumbers(env: Env, s: Server, a: Action)
    requires Numbering(s.accepted)
    ensures Numbering(Next(env, s, a).accepted)
  {
    hide Enqueue, ReleaseStranded, ReleaseDrain, ReleaseQueue, OnIngestEvent, Record;
  }

  /** A step holds nothing that it did not, but for the post it numbers. */
  lemma StepHolds(env: Env, s: Server, a: Action)
    ensures forall y :: HeldIn(Next(env, s, a).buf, y) ==> HeldIn(s.buf, y) || y.arrival == |s.accepted|
  {
    hide DeliverTo, EmitClock, ReleaseDrain, ReleaseQueue, HeldIn;
    match a
    case Deliver(e, now) => DeliverHolds(env, s, e, now);
    case StartSample(_, _) =>
    case SampleOk(status) => EmissionHolds(env, s.(sync := HltvSync.SampleOk(s.sync, status)));
    case SampleFail(message) => EmissionHolds(env, s.(sync := HltvSync.SampleFail(env.cfg, s.sync, message)));
    case Calibrate(offsetMs) => EmissionHolds(env, s.(sync := SetCalibration(s.sync, offsetMs)));
    case DriverTick(now) => TickHolds(env, s, now);
  }

  lemma TickHolds(env: Env, s: Server, now: real)
    ensures forall y :: HeldIn(Next(env, s, DriverTick(now)).buf, y) ==> HeldIn(s.buf, y)
  {
    var b := ReleaseDrain(s.buf, now);
    DrainHolds(s.buf, now);
    hide ReleaseDrain;
    if b.draining == [] {
      QueueFires(env.cfg, s.sync, b, now);
      hide ReleaseQueue;
      var m := ReadyCount(env.cfg, s.sync, b.queue, now);
      forall y | y in b.queue[m..] ensures HeldIn(b, y) {
      }
    }
  }

  lemma {:induction false} StaysOut(
      env: Env, states: seq<Server>, acts: seq<Action>, from: nat, till: nat, y: BufferedEvent)
    requires Runs(env, states, acts) && from <= till < |states|
    requires y.arrival < |states[from].accepted| && !HeldIn(states[from].buf, y)
    ensures !HeldIn(states[till].buf, y)
  {
    hide Next, HeldIn;
    if from < till {
      StaysOut(env, states, acts, from, till - 1, y);
      AcceptedGrows(env, states, acts, from, till - 1);
      StepHolds(env, states[till - 1], acts[till - 1]);
    }
  }

  /** Some driver tick before step `k` came past the instants of everything accepted by then of a level before the
      one current at `k`. */
  ghost predicate TickedOut(
      cfg: Config, w: World, turn: nat -> real, states: seq<Server>, acts: seq<Action>, k: nat)
    requires k <= |acts| < |states|
  {
    exists m: nat :: m < k && TicksOut(cfg, w, turn, states[m], acts[m], states[k])
  }

  ghost predicate TicksOut(cfg: Config, w: World, turn: nat -> real, s: Server, a: Action, r: Server) {
    && a.DriverTick?
    && forall y :: y in r.accepted && IndexOf(w, y) < CurrentIn(w, r) ==>
         y in s.accepted && OutBy(cfg, w, turn, s, y) <= a.now
  }

  /** Then nothing of an earlier level is still held. */
  lemma TickedOutIsClean(env: Env, w: World, turn: nat -> real, states: seq<Server>, acts: seq<Action>, k: nat)
    requires RunsFromStart(env, states, acts) && Sensible(env.cfg, w) && FromFirst(w) && InOrderOfLevels(turn)
    requires AllTimely(w, turn, states, acts, k) && TickedOut(env.cfg, w, turn, states, acts, k)
    ensures forall y :: HeldIn(states[k].buf, y) ==> IndexOf(w, y) == CurrentIn(w, states[k])
  {
    hide Next, Orderly, Timely, Sensible, FromFirst, InOrderOfLevels, OutBy, Conserved, HeldIn, Current;
    var m: nat :| m < k && TicksOut(env.cfg, w, turn, states[m], acts[m], states[k]);
    RunConserves(env, states, acts, k);
    RunConserves(env, states, acts, m + 1);
    RunNumbers(env, states, acts, k);
    RunNumbers(env, states, acts, m + 1);
    AcceptedGrows(env, states, acts, m, m + 1);
    forall y | HeldIn(states[k].buf, y) ensures IndexOf(w, y) == CurrentIn(w, states[k]) {
      HeldIsNumbered(states[k], y);
      IndexBelowCurrent(w, y.arrival, |states[k].accepted|);
      if IndexOf(w, y) < CurrentIn(w, states[k]) {
        FiresInTimeAcrossBoundaries(env, w, turn, states, acts, m, y);
        FiredIsNotHeld(states[m + 1], y);
        StaysOut(env, states, acts, m + 1, k, y);
        assert false;
      }
    }
  }

  lemma HeldIsNumbered(s: Server, y: BufferedEvent)
    requires Conserved(s) && Numbering(s.accepted) && HeldIn(s.buf, y)
    ensures y in s.accepted && y.arrival < |s.accepted|
  {
    assert y in Held(s.buf);
  }

  /** Each step is orderly and prompt, and each level but the first has had such a driver tick before a later one
      shows. */
  ghost predicate Lasting(
      cfg: Config, w: World, turn: nat -> real, states: seq<Server>, acts: seq<Action>, k: nat)
  {
    && k <= |acts| < |states|
    && forall n :: 0 <= n < k ==>
         && Orderly(w, states[n], acts[n]) && Prompt(w, turn, states[n], acts[n])
         && (Turns(w, states[n], acts[n]) && CurrentIn(w, states[n]) > 0 ==> TickedOut(cfg, w, turn, states, acts, n))
  }

  lemma LastingTurnsCleanly(env: Env, w: World, turn: nat -> real, states: seq<Server>, acts: seq<Action>, k: nat)
    requires RunsFromStart(env, states, acts) && Sensible(env.cfg, w) && FromFirst(w) && InOrderOfLevels(turn)
    requires AllTimely(w, turn, states, acts, k) && Lasting(env.cfg, w, turn, states, acts, k + 1)
    requires Turns(w, states[k], acts[k])
    ensures OnlyCurrent(w, states[k]) && TurnsCleanly(w, false, states[k], acts[k])
  {
    hide Next, Orderly, Prompt, Timely, FromFirst, Sensible, TickedOut, InOrderOfLevels, Conserved, Numbering, Current,
         Turns, TurnsCleanly;
    if CurrentIn(w, states[k]) > 0 {
      TickedOutIsClean(env, w, turn, states, acts, k);
      CleanTurns(w, states[k], acts[k]);
    } else {
      RunConserves(env, states, acts, k);
      RunNumbers(env, states, acts, k);
      FirstTurnsCleanly(w, states[k], acts[k]);
    }
  }

  lemma {:induction false} LastingIsTimely(
      env: Env, w: World, turn: nat -> real, states: seq<Server>, acts: seq<Action>, k: nat)
    requires RunsFromStart(env, states, acts) && Sensible(env.cfg, w) && FromFirst(w) && InOrderOfLevels(turn)
    requires Lasting(env.cfg, w, turn, states, acts, k)
    ensures AllTimely(w, turn, states, acts, k)
    ensures forall n :: 0 <= n < k ==> TurnsCleanly(w, false, states[n], acts[n])
  {
    hide Next, Orderly, Prompt, FromFirst, Sensible, TickedOut, InOrderOfLevels, Turns, TurnsCleanly, OnlyCurrent,
         CurrentIn;
    if k > 0 {
      LastingIsTimely(env, w, turn, states, acts, k - 1);
      if Turns(w, states[k - 1], acts[k - 1]) {
        LastingTurnsCleanly(env, w, turn, states, acts, k - 1);
      } else {
        StaysClean(w, states[k - 1], acts[k - 1]);
      }
    }
  }

  lemma StaysClean(w: World, s: Server, a: Action)
    requires !Turns(w, s, a)
    ensures TurnsCleanly(w, false, s, a)
  {
  }

  /** Levels that last fire in order, stalled and late posts apart; nothing is asked of what a turn finds left of an
      ended level. */
  lemma LastingLevelsFireInOrder(
      env: Env, w: World, turn: nat -> real, states: seq<Server>, acts: seq<Action>, k: nat, i: nat, j: nat)
    requires RunsFromStart(env, states, acts) && Sensible(env.cfg, w) && FromFirst(w) && InOrderOfLevels(turn)
    requires Lasting(env.cfg, w, turn, states, acts, k) && i < j < |states[k].buf.fired|
    ensures
      var x, y := states[k].buf.fired[i].item, states[k].buf.fired[j].item;
      IndexOf(w, x) > IndexOf(w, y) ==> Stalled(w, IndexOf(w, x), y) || FallsBehind(w, x, y)
  {
    hide Next, Orderly, Timely, FromFirst, Sensible, Stalled, FallsBehind, Lasting, InOrderOfLevels, TurnsCleanly,
         IndexOf;
    LastingIsTimely(env, w, turn, states, acts, k);
    LevelsFireInOrder(env, w, false, states, acts, k, i, j);
  }

  /** And so does every event of theirs by its instant. */
  lemma LastingLevelsFireInTime(env: Env, w: World, turn: nat -> real, states: seq<Server>, acts: seq<Action>,
                                k: nat, it: BufferedEvent)
    requires RunsFromStart(env, states, acts) && Sensible(env.cfg, w) && FromFirst(w) && InOrderOfLevels(turn)
    requires Lasting(env.cfg, w, turn, states, acts, k) && k < |acts|
    requires acts[k].DriverTick? && it in states[k].accepted
    requires OutBy(env.cfg, w, turn, states[k], it) <= acts[k].now
    ensures it in FiredItems(states[k + 1].buf.fired)
  {
    hide Next, Orderly, Timely, FromFirst, Sensible, Lasting, InOrderOfLevels, TurnsCleanly, OutBy;
    LastingIsTimely(env, w, turn, states, acts, k);
    FiresInTimeAcrossBoundaries(env, w, turn, states, acts, k, it);
  }

  lemma CleanTurns(w: World, s: Server, a: Action)
    requires forall y :: HeldIn(s.buf, y) ==> IndexOf(w, y) == CurrentIn(w, s)
    ensures OnlyCurrent(w, s) && TurnsCleanly(w, false, s, a)
  {
    forall x | x in s.buf.draining ensures IndexOf(w, x.item) == CurrentIn(w, s) {
      var i :| 0 <= i < |s.buf.draining| && s.buf.draining[i] == x;
      ItemAt(s.buf.draining, i);
      assert HeldIn(s.buf, x.item);
    }
    assert forall y :: y in s.buf.queue ==> HeldIn(s.buf, y);
  }

  lemma FirstTurnsCleanly(w: World, s: Server, a: Action)
    requires Conserved(s) && Numbering(s.accepted) && CurrentIn(w, s) == 0
    ensures OnlyCurrent(w, s) && TurnsCleanly(w, false, s, a)
  {
    forall y | HeldIn(s.buf, y) ensures IndexOf(w, y) == CurrentIn(w, s) {
      HeldIsNumbered(s, y);
      FirstHasNoLater(w, |s.accepted|, y.arrival);
    }
    CleanTurns(w, s, a);
  }

  /** Among what a log gained from the main queue, `x` comes before `y`. */
  ghost predicate FiresFirst(log: seq<Fired>, from: nat, x: BufferedEvent, y: BufferedEvent) {
    exists i, j :: from <= i < j < |log| && log[i].releaseAt.None? && log[i].item == x
                   && log[j].releaseAt.None? && log[j].item == y
  }

  /** Two events of an ordered queue stand by tick, the earlier-posted first on equal ticks. */
  lemma StandsByTick(q: seq<BufferedEvent>, a: nat, b: nat)
    requires QueueOrdered(q) && a < |q| && b < |q| && q[b].arrival < q[a].arrival
    ensures a < b <==> NumericTick(q[a]) < NumericTick(q[b])
  {
    assert a < b ==> Before(q[a], q[b]);
    assert b < a ==> Before(q[b], q[a]);
  }

  /** With an event `y` of an earlier level and a later-posted `x` of the current one queued together, the driver tick
      that fires either lets `x` out ahead of `y` if and only if the tick of `x` is the lower. */
  lemma ReordersExactlyWhen(env: Env, s: Server, now: real, x: BufferedEvent, y: BufferedEvent)
    requires QueueOrdered(s.buf.queue) && x in s.buf.queue && y in s.buf.queue && y.arrival < x.arrival
    requires var r := Next(env, s, DriverTick(now)).buf; x !in r.queue || y !in r.queue
    ensures
      var r := Next(env, s, DriverTick(now)).buf;
      (y in r.queue || FiresFirst(r.fired, |s.buf.fired|, x, y)) <==> NumericTick(x) < NumericTick(y)
  {
    hide Next, NumericTick, FiresFirst, QueueOrdered;
    var a: nat :| a < |s.buf.queue| && s.buf.queue[a] == x;
    var b: nat :| b < |s.buf.queue| && s.buf.queue[b] == y;
    StandsByTick(s.buf.queue, a, b);
    FiresByPosition(env, s, now, a, b);
    FiresByPosition(env, s, now, b, a);
  }

  lemma FiresByPosition(env: Env, s: Server, now: real, a: nat, b: nat)
    requires QueueOrdered(s.buf.queue) && a < |s.buf.queue| && b < |s.buf.queue|
    requires Next(env, s, DriverTick(now)).buf.queue != s.buf.queue
    ensures
      var q, r, m := s.buf.queue, Next(env, s, DriverTick(now)).buf, ReadyCount(env.cfg, s.sync, s.buf.queue, now);
      && (q[a] in r.queue <==> a >= m) && (FiresFirst(r.fired, |s.buf.fired|, q[a], q[b]) <==> a < b < m)
  {
    var q, r := s.buf.queue, Next(env, s, DriverTick(now)).buf;
    var m, n := ReadyCount(env.cfg, s.sync, q, now), |ReleaseDrain(s.buf, now).fired|;
    QueueFired(env, s, now);
    hide Next, ReleaseDrain, ReadyCount, FiresFirst, QueueOrdered;
    InSuffix(q, m, a);
    FirstInLog(q, r.fired, |s.buf.fired|, n, m, a, b);
  }

  /** In a log that took a queue's prefix after the drain's, positions in the queue decide. */
  lemma FirstInLog(q: seq<BufferedEvent>, log: seq<Fired>, from: nat, n: nat, m: nat, a: nat, b: nat)
    requires QueueOrdered(q) && m <= |q| && a < |q| && b < |q| && from <= n && |log| == n + m
    requires forall i :: from <= i < n ==> log[i].releaseAt.Some?
    requires forall i :: 0 <= i < m ==> log[n + i].releaseAt.None? && log[n + i].item == q[i]
    ensures FiresFirst(log, from, q[a], q[b]) <==> a < b < m
  {
    if a < b < m {
      assert log[n + a].item == q[a] && log[n + b].item == q[b];
    } else {
      forall i, j | from <= i < j < |log| && log[i].releaseAt.None? && log[j].releaseAt.None?
        ensures !(log[i].item == q[a] && log[j].item == q[b])
      {
        assert log[n + (i - n)].item == q[i - n] && log[n + (j - n)].item == q[j - n];
        NoRepeats(q, i - n, a);
        NoRepeats(q, j - n, b);
      }
    }
  }

  lemma NoRepeats(q: seq<BufferedEvent>, i: nat, j: nat)
    requires QueueOrdered(q) && i < |q| && j < |q|
    ensures q[i] == q[j] ==> i == j
  {
    if i < j {
      assert Before(q[i], q[j]);
    } else if j < i {
      assert Before(q[j], q[i]);
    }
  }

  lemma InSuffix(q: seq<BufferedEvent>, m: nat, b: nat)
    requires QueueOrdered(q) && m <= |q| && b < |q|
    ensures q[b] in q[m..] <==> b >= m
  {
    hide Before;
    if b >= m {
      assert q[m..][b - m] == q[b];
    } else {
      forall i | 0 <= i < |q| - m ensures q[m..][i] != q[b] {
        NoRepeats(q, m + i, b);
      }
    }
  }

  /** What a driver tick that fires from the main queue adds to the log: the drain's, then the queue's prefix. */
  lemma QueueFired(env: Env, s: Server, now: real)
    requires Next(env, s, DriverTick(now)).buf.queue != s.buf.queue
    ensures
      var r, m, n := Next(env, s, DriverTick(now)).buf, ReadyCount(env.cfg, s.sync, s.buf.queue, now),
                     |ReleaseDrain(s.buf, now).fired|;
      && r.queue == s.buf.queue[m..] && |r.fired| == n + m && |s.buf.fired| <= n
      && (forall i :: |s.buf.fired| <= i < n ==> r.fired[i].releaseAt.Some?)
      && (forall i :: 0 <= i < m ==> r.fired[n + i] == Fired(s.buf.queue[i], now, None))
  {
    hide DueCount, Due;
  }
}
