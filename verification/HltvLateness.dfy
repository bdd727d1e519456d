/** How late an event can fire, and in what order: bounds on every accepted event over a level's runs,
    with samples, failures and driver ticks in any number and order. */
module HltvLateness {
  import opened Wrappers
  import opened HltvSync
  import opened HltvDelayBuffer
  import opened HltvPipeline
  import opened HltvLaws
  import opened HltvBoundary
  import opened HltvAccuracy

  /** Through any number of samples, an accepted event has fired by a driver tick a second after viewers
      reach it that finds the drain empty and the clock online. */
  lemma FiredOnceShown(env: Env, l: Level, states: seq<Server>, acts: seq<Action>, k: nat, it: BufferedEvent)
    requires RunsFromStart(env, states, acts) && k < |acts|
    requires forall i :: 0 <= i < k ==> InLevel(l, states[i], acts[i])
    requires acts[k].DriverTick? && states[k + 1].buf.draining == []
    requires states[k].sync.clock.Some? && states[k].sync.clock.value.online
    requires it in states[k].accepted && ShownAt(l, it) + 1000.0 <= acts[k].now
    ensures it in FiredItems(states[k + 1].buf.fired)
  {
    hide Next, InLevel, DueAt, ShownAt;
    OnlineClockIsAccurate(env, l, states, acts, k);
    DueWithinASecond(env.cfg, l, states[k].sync, it);
    FiredOnceDue(env, states, acts, k, it);
  }

  // ---- Any posts: everything fires once they stop ----

  function Longer(a: real, b: real): real { if a < b then b else a }

  /** The longest an event of the level can be held after it is posted, in milliseconds. */
  function Hold(cfg: Config, l: Level): real {
    (Longer(l.delaySeconds + 1.0, cfg.fallbackDelaySeconds) + cfg.boardReleaseLagSeconds) * 1000.0
  }

  ghost predicate HoldInv(cfg: Config, l: Level, s: Server) {
    && ClocksAccurate(l, s.sync)
    && (forall it :: it in s.buf.queue ==> NumericTick(it) <= GameTime(l, it.enqueuedAt))
    && (forall x :: x in s.buf.draining ==> x.releaseAt <= x.item.enqueuedAt + Hold(cfg, l))
  }

  /** A step of the level's life: posts come after the level was loaded. */
  ghost predicate Lived(l: Level, s: Server, a: Action) {
    InLevel(l, s, a) && (a.Deliver? ==> l.loadedAt <= a.now)
  }

  lemma ProjectionWithinHold(cfg: Config, l: Level, it: BufferedEvent, basis: Option<ClockBasis>)
    requires Covers(cfg, l) && NumericTick(it) <= GameTime(l, it.enqueuedAt)
    requires basis.Some? ==> Accurate(l, basis.value)
    ensures ProjectReleaseAt(cfg, it, basis) <= it.enqueuedAt + Hold(cfg, l)
  {
  }

  lemma DueWithinHold(cfg: Config, l: Level, sync: ServerSync, it: BufferedEvent)
    requires Covers(cfg, l) && NumericTick(it) <= GameTime(l, it.enqueuedAt) && ClocksAccurate(l, sync)
    ensures DueAt(cfg, sync, it) <= it.enqueuedAt + Hold(cfg, l)
  {
  }

  lemma DrainTailWithinHold(cfg: Config, l: Level, sync: ServerSync, b: ServerBuffer, items: seq<BufferedEvent>)
    requires Covers(cfg, l) && ClocksAccurate(l, sync)
    requires forall it :: it in items ==> NumericTick(it) <= GameTime(l, it.enqueuedAt)
    requires forall x :: x in b.draining ==> x.releaseAt <= x.item.enqueuedAt + Hold(cfg, l)
    ensures forall x :: x in DrainTail(cfg, sync, b, items).draining ==>
              x.releaseAt <= x.item.enqueuedAt + Hold(cfg, l)
  {
    hide ProjectReleaseAt, Accurate, Covers, Hold, GameTime, NumericTick;
    var stamped := Stamp(cfg, items, TailBasis(sync));
    forall x | x in stamped ensures x.releaseAt <= x.item.enqueuedAt + Hold(cfg, l) {
      var i :| 0 <= i < |stamped| && stamped[i] == x;
      assert items[i] in items;
      ProjectionWithinHold(cfg, l, x.item, TailBasis(sync));
    }
    forall x | x in DrainTail(cfg, sync, b, items).draining
      ensures x.releaseAt <= x.item.enqueuedAt + Hold(cfg, l)
    {
      if items != [] {
        assert x in multiset(SortByRelease(b.draining + stamped));
        assert x in b.draining || x in stamped;
      }
    }
  }

  lemma EnqueueWithinHold(cfg: Config, l: Level, sync: ServerSync, b: ServerBuffer, it: BufferedEvent, now: real)
    requires Covers(cfg, l) && ClocksAccurate(l, sync) && NumericTick(it) <= GameTime(l, it.enqueuedAt)
    requires forall x :: x in b.queue ==> NumericTick(x) <= GameTime(l, x.enqueuedAt)
    requires forall x :: x in b.draining ==> x.releaseAt <= x.item.enqueuedAt + Hold(cfg, l)
    ensures var r := Enqueue(cfg, sync, b, it, now);
      && (forall x :: x in r.queue ==> NumericTick(x) <= GameTime(l, x.enqueuedAt))
      && (forall x :: x in r.draining ==> x.releaseAt <= x.item.enqueuedAt + Hold(cfg, l))
  {
    hide DrainTail, OldEpochTick, ClocksAccurate, Hold, GameTime, Covers;
    DrainTailWithinHold(cfg, l, sync, b, [it]);
    DrainTailWithinHold(cfg, l, sync, b, b.queue);
    InsertByTickMembers(b.queue, it);
    DrainTailFrame(cfg, sync, b, [it]);
    DrainTailFrame(cfg, sync, b, b.queue);
  }

  lemma EmitWithinHold(env: Env, l: Level, s: Server)
    requires Covers(env.cfg, l) && HoldInv(env.cfg, l, s)
    ensures HoldInv(env.cfg, l, EmitClock(env, s))
  {
    hide DrainTail, ClocksAccurate, Hold, GameTime, Covers;
    if s.sync.clock.Some? {
      var activeTime := s.sync.clock.value.basis.activeTime;
      var kept := s.buf.(queue := Sift(s.buf.queue, activeTime, false));
      DrainTailWithinHold(env.cfg, l, s.sync, kept, Sift(s.buf.queue, activeTime, true));
      DrainTailFrame(env.cfg, s.sync, kept, Sift(s.buf.queue, activeTime, true));
    }
  }

  lemma StepWithinHold(env: Env, l: Level, s: Server, a: Action)
    requires Covers(env.cfg, l) && HoldInv(env.cfg, l, s) && Lived(l, s, a)
    ensures HoldInv(env.cfg, l, Next(env, s, a))
  {
    hide Enqueue, EmitClock, OnIngestEvent, Accurate, Covers, Hold;
    match a
    case Deliver(e, now) =>
      NextKeepsClocksAccurate(env, l, s, a);
      EnqueueWithinHold(env.cfg, l, OnIngestEvent(s.sync, e, now), s.buf, Numbered(env, s, e, now), now);
    case StartSample(_, _) =>
    case SampleOk(status) =>
      if s.sync.inflight.Some? {
        ReadIsAccurate(l, s.sync, status);
        EmitWithinHold(env, l, s.(sync := HltvSync.SampleOk(s.sync, status)));
      }
    case SampleFail(message) => EmitWithinHold(env, l, s.(sync := HltvSync.SampleFail(env.cfg, s.sync, message)));
    case Calibrate(offsetMs) => EmitWithinHold(env, l, s.(sync := SetCalibration(s.sync, offsetMs)));
    case DriverTick(now) =>
      var r := Next(env, s, a).buf;
      assert forall it :: it in r.queue ==> it in s.buf.queue;
      assert forall x :: x in r.draining ==> x in s.buf.draining;
  }

  lemma {:induction false} RunWithinHold(env: Env, l: Level, states: seq<Server>, acts: seq<Action>, k: nat)
    requires RunsFromStart(env, states, acts) && k < |states| && Covers(env.cfg, l)
    requires forall i :: 0 <= i < k ==> Lived(l, states[i], acts[i])
    ensures HoldInv(env.cfg, l, states[k])
  {
    hide Next, Lived, Covers, Hold;
    if k > 0 {
      RunWithinHold(env, l, states, acts, k - 1);
      StepWithinHold(env, l, states[k - 1], acts[k - 1]);
    }
  }

  /** `x` stands in front of `it` at a driver tick: it is still to drain, or is queued at or below its tick. */
  ghost predicate InFrontOf(b: ServerBuffer, x: BufferedEvent, it: BufferedEvent) {
    x in Items(b.draining) || (x in b.queue && NumericTick(x) <= NumericTick(it))
  }

  /** Given an instant by which each event held falls due, an event past its own has fired by the driver tick, or
      waits behind one that is not past its. */
  lemma FiresUnlessBehind(env: Env, states: seq<Server>, acts: seq<Action>, k: nat, bound: BufferedEvent -> real,
                          it: BufferedEvent) returns (x: BufferedEvent)
    requires RunsFromStart(env, states, acts) && k < |acts| && acts[k].DriverTick?
    requires forall y :: y in states[k].buf.queue ==> DueAt(env.cfg, states[k].sync, y) <= bound(y)
    requires forall y :: y in states[k].buf.draining ==> y.releaseAt <= bound(y.item)
    requires it in states[k].accepted && bound(it) <= acts[k].now
    ensures
      || it in FiredItems(states[k + 1].buf.fired)
      || (it in states[k + 1].buf.queue && x in states[k].accepted
          && InFrontOf(states[k + 1].buf, x, it) && bound(x) > acts[k].now)
  {
    hide Next, QueueInv, NumericTick, DueAt;
    var s, now := states[k], acts[k].now;
    RunKeepsQueue(env, states, acts, k);
    RunConserves(env, states, acts, k);
    RunConserves(env, states, acts, k + 1);
    assert states[k + 1] == Next(env, s, DriverTick(now));
    HeldIsAccepted(s);
    DriverKeepsAccepted(env, s, now);
    x := WhatHolds(env, s, now, bound, it);
    if it !in FiredItems(states[k + 1].buf.fired) {
      NotFiredIsHeld(states[k + 1], it);
    }
  }

  /** A driver tick that leaves an overdue event held leaves in front of it one that is not. */
  lemma WhatHolds(env: Env, s: Server, now: real, bound: BufferedEvent -> real, it: BufferedEvent)
    returns (x: BufferedEvent)
    requires QueueInv(s) && bound(it) <= now
    requires forall y :: y in s.buf.queue ==> DueAt(env.cfg, s.sync, y) <= bound(y)
    requires forall y :: y in s.buf.draining ==> y.releaseAt <= bound(y.item)
    ensures
      var r := Next(env, s, DriverTick(now)).buf;
      && it !in Items(r.draining)
      && (it in r.queue ==>
            && (x in s.buf.queue || x in Items(s.buf.draining)) && InFrontOf(r, x, it)
            && bound(x) > now)
  {
    hide NumericTick, DueAt;
    var n := DueCount(s.buf.draining, now);
    var r := Next(env, s, DriverTick(now)).buf;
    assert r.draining == s.buf.draining[n..];
    forall i | 0 <= i < |r.draining| ensures now < r.draining[i].releaseAt && r.draining[i] in s.buf.draining {
      assert r.draining[i] == s.buf.draining[n + i];
    }
    x := it;
    if r.draining != [] {
      x := r.draining[0].item;
      assert Items(r.draining)[0] == x && Items(s.buf.draining)[n] == x;
    } else {
      var m := ReadyCount(env.cfg, s.sync, s.buf.queue, now);
      assert r.queue == s.buf.queue[m..];
      if r.queue != [] {
        x := s.buf.queue[m];
        assert x in s.buf.queue && x in r.queue;
        DueFromThenOn(env.cfg, s.sync, x, now);
        QueueFront(s.buf.queue, m, it);
      }
    }
  }

  /** Whatever the posts, late, tickless or misjudged, and whatever the samples: an event one hold past its
      post has fired, or waits behind one that is not a hold past its own. */
  lemma HeldOnlyBehindNewer(env: Env, l: Level, states: seq<Server>, acts: seq<Action>, k: nat, it: BufferedEvent)
    returns (x: BufferedEvent)
    requires RunsFromStart(env, states, acts) && k < |acts| && Covers(env.cfg, l)
    requires forall i :: 0 <= i < k ==> Lived(l, states[i], acts[i])
    requires acts[k].DriverTick? && it in states[k].accepted
    requires it.enqueuedAt + Hold(env.cfg, l) <= acts[k].now
    ensures
      || it in FiredItems(states[k + 1].buf.fired)
      || (x in states[k].accepted && InFrontOf(states[k + 1].buf, x, it)
          && x.enqueuedAt + Hold(env.cfg, l) > acts[k].now)
  {
    hide Next, Lived, Covers, Hold, DueAt, InFrontOf;
    RunWithinHold(env, l, states, acts, k);
    forall y | y in states[k].buf.queue
      ensures DueAt(env.cfg, states[k].sync, y) <= y.enqueuedAt + Hold(env.cfg, l)
    {
      DueWithinHold(env.cfg, l, states[k].sync, y);
    }
    x := FiresUnlessBehind(env, states, acts, k, (y: BufferedEvent) => y.enqueuedAt + Hold(env.cfg, l), it);
  }

  lemma QueueFront(q: seq<BufferedEvent>, m: nat, it: BufferedEvent)
    requires QueueOrdered(q) && m < |q|
    ensures it in q[m..] ==> NumericTick(q[m]) <= NumericTick(it)
  {
    if it in q[m..] {
      var i :| m <= i < |q| && q[i] == it;
      assert m < i ==> Before(q[m], q[i]);
    }
  }

  lemma NotFiredIsHeld(s: Server, it: BufferedEvent)
    requires Conserved(s) && it in s.accepted && it !in FiredItems(s.buf.fired)
    ensures it in s.buf.queue || it in Items(s.buf.draining)
  {
    assert it in multiset(s.accepted);
  }

  /** So a driver tick one hold after the last post leaves nothing held: every accepted event has fired. */
  lemma AllFireOnceQuiet(env: Env, l: Level, states: seq<Server>, acts: seq<Action>, k: nat)
    requires RunsFromStart(env, states, acts) && k < |acts| && Covers(env.cfg, l)
    requires forall i :: 0 <= i < k ==> Lived(l, states[i], acts[i])
    requires acts[k].DriverTick?
    requires forall x :: x in states[k].accepted ==> x.enqueuedAt + Hold(env.cfg, l) <= acts[k].now
    ensures forall it :: it in states[k].accepted ==> it in FiredItems(states[k + 1].buf.fired)
  {
    hide Next, Lived, Covers, Hold;
    forall it | it in states[k].accepted ensures it in FiredItems(states[k + 1].buf.fired) {
      var x := HeldOnlyBehindNewer(env, l, states, acts, k, it);
    }
  }

  lemma HeldIsAccepted(s: Server)
    requires Conserved(s)
    ensures forall x :: x in s.buf.queue ==> x in s.accepted
    ensures forall x :: x in s.buf.draining ==> x.item in s.accepted
    ensures forall f :: f in s.buf.fired ==> f.item in s.accepted
  {
    forall x | x in s.buf.queue ensures x in s.accepted {
      assert x in Held(s.buf);
    }
    forall x | x in s.buf.draining ensures x.item in s.accepted {
      var i :| 0 <= i < |s.buf.draining| && s.buf.draining[i] == x;
      assert Items(s.buf.draining)[i] == x.item;
      assert x.item in Held(s.buf);
    }
    forall f | f in s.buf.fired ensures f.item in s.accepted {
      var i :| 0 <= i < |s.buf.fired| && s.buf.fired[i] == f;
      assert FiredItems(s.buf.fired)[i] == f.item;
      assert f.item in Held(s.buf);
    }
  }

  lemma DriverKeepsAccepted(env: Env, s: Server, now: real)
    ensures Next(env, s, DriverTick(now)).accepted == s.accepted
    ensures Next(env, s, DriverTick(now)).sync == s.sync
  {
  }

  // ---- Punctual posts: each fires in time and in order ----

  /** Nothing accepted or fired is dated later than `now`. */
  ghost predicate InTimeOrder(s: Server, now: real) {
    (forall x :: x in s.accepted ==> x.enqueuedAt <= now) && (forall f :: f in s.buf.fired ==> f.at <= now)
  }

  ghost predicate FindsNothing(s: Server, activeTime: real) {
    forall it :: it in s.buf.queue ==> !Stranded(it, activeTime)
  }

  /** A step of a level whose posts carry ticks and arrive at most `late` seconds after them, whose replies are
      adopted within 29 s of being read, and whose other emissions find nothing stranded. */
  ghost predicate Punctual(l: Level, late: real, s: Server, a: Action) {
    match a
    case Deliver(e, now) =>
      && e.tick.Some? && GameTime(l, now) - late <= e.tick.value <= GameTime(l, now)
      && !MapChanged(s.sync, e) && InTimeOrder(s, now)
    case StartSample(_, _) => true
    case SampleOk(status) =>
      s.sync.inflight.Some? ==>
        var t := s.sync.inflight.value.sampledAt;
        exists u :: t <= u <= t + l.readLagSeconds * 1000.0 && ReadAt(l, status, u)
                    && forall it :: it in s.buf.queue ==> it.enqueuedAt <= u + 29000.0
    case SampleFail(message) =>
      message == "" && s.sync.clock.Some? ==> FindsNothing(s, s.sync.clock.value.basis.activeTime)
    case Calibrate(offsetMs) =>
      offsetMs == 0.0 && (s.sync.clock.Some? ==> FindsNothing(s, s.sync.clock.value.basis.activeTime))
    case DriverTick(now) => InTimeOrder(s, now)
  }

  /** The latest instant a post of the event's tick can arrive. */
  function ArrivesBy(l: Level, late: real, it: BufferedEvent): real {
    l.loadedAt + (NumericTick(it) + late) * 1000.0
  }

  ghost predicate PunctualItem(l: Level, late: real, it: BufferedEvent) {
    it.event.tick.Some? && NumericTick(it) <= GameTime(l, it.enqueuedAt) && it.enqueuedAt <= ArrivesBy(l, late, it)
  }

  ghost predicate PunctualInv(l: Level, late: real, s: Server) {
    && ClocksAccurate(l, s.sync) && s.sync.lastBoundary.None? && s.buf.draining == []
    && (s.sync.highestEventTick.Some? ==>
          exists x :: x in s.accepted && s.sync.highestEventTick.value <= GameTime(l, x.enqueuedAt))
    && (forall it :: it in s.accepted ==> PunctualItem(l, late, it))
    && (forall it :: it in s.buf.queue ==> it in s.accepted)
  }

  lemma PunctualIsInLevel(l: Level, late: real, s: Server, a: Action)
    requires Punctual(l, late, s, a)
    ensures InLevel(l, s, a)
  {
    if a.SampleOk? && s.sync.inflight.Some? {
      var t := s.sync.inflight.value.sampledAt;
      var u :| t <= u <= t + l.readLagSeconds * 1000.0 && ReadAt(l, a.status, u)
               && forall it :: it in s.buf.queue ==> it.enqueuedAt <= u + 29000.0;
    }
  }

  /** A punctual post is neither a boundary nor a straggler, and evicts nothing. */
  lemma PostIsOrdinary(l: Level, late: real, s: Server, e: Event, now: real)
    requires 0.0 <= late <= TICK_RESET_THRESHOLD_S && PunctualInv(l, late, s) && Punctual(l, late, s, Deliver(e, now))
    ensures !TickReset(s.sync, e, now) && !TailFarAbove(s.buf.queue, e.tick.value)
    ensures
      var r := OnIngestEvent(s.sync, e, now);
      && r.lastBoundary.None?
      && (r.highestEventTick == s.sync.highestEventTick || r.highestEventTick == e.tick)
  {
    var q := s.buf.queue;
    if q != [] {
      assert q[|q| - 1] in q;
      assert PunctualItem(l, late, q[|q| - 1]);
    }
  }

  lemma DeliverIsPunctual(env: Env, l: Level, late: real, s: Server, e: Event, now: real)
    requires 0.0 <= late <= TICK_RESET_THRESHOLD_S && PunctualInv(l, late, s) && Punctual(l, late, s, Deliver(e, now))
    ensures PunctualInv(l, late, DeliverTo(env, s, e, now))
    ensures DeliverTo(env, s, e, now).buf.queue == InsertByTick(s.buf.queue, Numbered(env, s, e, now))
    ensures DeliverTo(env, s, e, now).buf.fired == s.buf.fired
  {
    var it := Numbered(env, s, e, now);
    var r := DeliverTo(env, s, e, now);
    PunctualIsInLevel(l, late, s, Deliver(e, now));
    NextKeepsClocksAccurate(env, l, s, Deliver(e, now));
    PostIsOrdinary(l, late, s, e, now);
    assert PunctualItem(l, late, it);
    InsertByTickMembers(s.buf.queue, it);
    hide ClocksAccurate, PunctualItem, OnIngestEvent, Punctual, GameTime;
    assert r.buf.queue == InsertByTick(s.buf.queue, it);
    assert it in r.accepted;
  }

  lemma EmissionIsPunctual(env: Env, l: Level, late: real, s: Server)
    requires PunctualInv(l, late, s)
    requires s.sync.clock.Some? && s.sync.clock.value.online && s.sync.clock.value.lastError == "" ==>
               FindsNothing(s, s.sync.clock.value.basis.activeTime)
    ensures PunctualInv(l, late, EmitClock(env, s))
    ensures EmitClock(env, s).buf.fired == s.buf.fired
    ensures forall it :: it in EmitClock(env, s).buf.queue ==> it in s.buf.queue
  {
    hide ClocksAccurate, PunctualItem;
    if s.sync.clock.Some? {
      assert FindsNothing(s, s.sync.clock.value.basis.activeTime) ==>
        Sift(s.buf.queue, s.sync.clock.value.basis.activeTime, true) == [] by {
        var stranded := Sift(s.buf.queue, s.sync.clock.value.basis.activeTime, true);
        if stranded != [] {
          assert stranded[0] in stranded;
        }
      }
    }
  }

  lemma ReplyFindsNothing(l: Level, late: real, s: Server, status: RconStatus)
    requires PunctualInv(l, late, s) && Punctual(l, late, s, SampleOk(status)) && s.sync.inflight.Some?
    ensures FindsNothing(s, status.activeTime)
  {
    var t := s.sync.inflight.value.sampledAt;
    var u :| t <= u <= t + l.readLagSeconds * 1000.0 && ReadAt(l, status, u)
             && forall it :: it in s.buf.queue ==> it.enqueuedAt <= u + 29000.0;
    forall it | it in s.buf.queue ensures !Stranded(it, status.activeTime) {
      assert PunctualItem(l, late, it);
      assert NumericTick(it) <= GameTime(l, it.enqueuedAt) <= GameTime(l, u) + 29.0;
    }
  }

  lemma SampleIsPunctual(env: Env, l: Level, late: real, s: Server, a: Action)
    requires PunctualInv(l, late, s) && Punctual(l, late, s, a)
    requires a.SampleOk? || a.SampleFail? || a.Calibrate?
    ensures PunctualInv(l, late, Next(env, s, a))
    ensures Next(env, s, a).buf.fired == s.buf.fired && Next(env, s, a).accepted == s.accepted
    ensures forall it :: it in Next(env, s, a).buf.queue ==> it in s.buf.queue
  {
    PunctualIsInLevel(l, late, s, a);
    NextKeepsClocksAccurate(env, l, s, a);
    hide ClocksAccurate, PunctualItem, ReadAt, EmitClock;
    match a
    case SampleOk(status) =>
      if s.sync.inflight.Some? {
        ReplyFindsNothing(l, late, s, status);
        var t := s.(sync := HltvSync.SampleOk(s.sync, status));
        EmitThins(env, t);
        EmissionIsPunctual(env, l, late, t);
      }
    case SampleFail(message) =>
      if s.sync.inflight.Some? {
        var t := s.(sync := HltvSync.SampleFail(env.cfg, s.sync, message));
        EmitThins(env, t);
        EmissionIsPunctual(env, l, late, t);
      }
    case Calibrate(offsetMs) =>
      var t := s.(sync := SetCalibration(s.sync, offsetMs));
      EmitThins(env, t);
      EmissionIsPunctual(env, l, late, t);
  }

  lemma StepIsPunctual(env: Env, l: Level, late: real, s: Server, a: Action)
    requires 0.0 <= late <= TICK_RESET_THRESHOLD_S && PunctualInv(l, late, s) && Punctual(l, late, s, a)
    ensures PunctualInv(l, late, Next(env, s, a))
  {
    hide ClocksAccurate, PunctualItem, Punctual, DeliverTo, EmitClock;
    match a
    case Deliver(e, now) => DeliverIsPunctual(env, l, late, s, e, now);
    case StartSample(_, _) => StartKeepsClocks(env, l, s, a);
    case SampleOk(_) => SampleIsPunctual(env, l, late, s, a);
    case SampleFail(_) => SampleIsPunctual(env, l, late, s, a);
    case Calibrate(_) => SampleIsPunctual(env, l, late, s, a);
    case DriverTick(now) =>
      assert forall it :: it in Next(env, s, a).buf.queue ==> it in s.buf.queue;
  }

  lemma StartKeepsClocks(env: Env, l: Level, s: Server, a: Action)
    requires a.StartSample? && ClocksAccurate(l, s.sync)
    ensures ClocksAccurate(l, Next(env, s, a).sync)
  {
  }

  /** On punctual runs of one level no boundary is ever seen and the drain stays empty. */
  lemma {:induction false} RunIsPunctual(env: Env, l: Level, late: real, states: seq<Server>, acts: seq<Action>, k: nat)
    requires RunsFromStart(env, states, acts) && k < |states| && 0.0 <= late <= TICK_RESET_THRESHOLD_S
    requires forall i :: 0 <= i < k ==> Punctual(l, late, states[i], acts[i])
    ensures PunctualInv(l, late, states[k])
  {
    hide Next, Punctual;
    if k > 0 {
      RunIsPunctual(env, l, late, states, acts, k - 1);
      StepIsPunctual(env, l, late, states[k - 1], acts[k - 1]);
    }
  }

  /** With the clock online, a second after viewers reach the event; offline, the fallback delay after the
      last instant its post could arrive. */
  function FiresBy(cfg: Config, l: Level, late: real, sync: ServerSync, it: BufferedEvent): real {
    if sync.clock.Some? && sync.clock.value.online then ShownAt(l, it) + 1000.0
    else ArrivesBy(l, late, it) + cfg.fallbackDelaySeconds * 1000.0
  }

  /** Bounded lateness of every event: on punctual runs, however many samples succeed or fail, every accepted
      event has fired by any driver tick at or after its bound. */
  lemma FiresInTime(env: Env, l: Level, late: real, states: seq<Server>, acts: seq<Action>, k: nat, it: BufferedEvent)
    requires RunsFromStart(env, states, acts) && k < |acts| && 0.0 <= late <= TICK_RESET_THRESHOLD_S
    requires forall i :: 0 <= i < k ==> Punctual(l, late, states[i], acts[i])
    requires acts[k].DriverTick? && it in states[k].accepted
    requires FiresBy(env.cfg, l, late, states[k].sync, it) <= acts[k].now
    ensures it in FiredItems(states[k + 1].buf.fired)
  {
    hide Next, Punctual, QueueInv, Conserved, FiresBy;
    var s, now := states[k], acts[k].now;
    RunIsPunctual(env, l, late, states, acts, k);
    RunKeepsQueue(env, states, acts, k);
    RunConserves(env, states, acts, k + 1);
    assert states[k + 1] == Next(env, s, DriverTick(now));
    forall x | x in s.buf.queue && NumericTick(x) <= NumericTick(it) ensures DueAt(env.cfg, s.sync, x) <= now {
      assert PunctualItem(l, late, x);
      DueInTime(env.cfg, l, late, s.sync, x, it, now);
    }
    LeavesInTime(env, s, now, it);
    HeldWhenIdle(states[k + 1], it);
  }

  lemma DueInTime(cfg: Config, l: Level, late: real, sync: ServerSync, x: BufferedEvent, it: BufferedEvent, now: real)
    requires ClocksAccurate(l, sync) && PunctualItem(l, late, x) && NumericTick(x) <= NumericTick(it)
    requires FiresBy(cfg, l, late, sync, it) <= now
    ensures DueAt(cfg, sync, x) <= now
  {
    if sync.clock.Some? && sync.clock.value.online {
      DueWithinASecond(cfg, l, sync, x);
    }
  }

  lemma LeavesInTime(env: Env, s: Server, now: real, it: BufferedEvent)
    requires QueueInv(s) && s.buf.draining == []
    requires forall x :: x in s.buf.queue && NumericTick(x) <= NumericTick(it) ==> DueAt(env.cfg, s.sync, x) <= now
    ensures
      var r := Next(env, s, DriverTick(now));
      it !in r.buf.queue && r.buf.draining == [] && r.accepted == s.accepted
  {
    hide NumericTick, DueAt;
    var q := s.buf.queue;
    var m := ReadyCount(env.cfg, s.sync, q, now);
    assert Next(env, s, DriverTick(now)).buf.queue == q[m..];
    if m < |q| {
      QueueFront(q, m, it);
      DueFromThenOn(env.cfg, s.sync, q[m], now);
      assert q[m] in q;
    }
  }

  ghost predicate InOrder(log: seq<Fired>) {
    forall i, j :: 0 <= i < j < |log| ==> Before(log[i].item, log[j].item)
  }

  ghost predicate AllBefore(log: seq<Fired>, q: seq<BufferedEvent>) {
    forall i, j :: 0 <= i < |log| && 0 <= j < |q| ==> Before(log[i].item, q[j])
  }

  /** What has fired is in order, and all of it comes before what is queued or still to come. */
  ghost predicate FiredInOrder(l: Level, late: real, s: Server) {
    && InOrder(s.buf.fired) && AllBefore(s.buf.fired, s.buf.queue)
    && (forall f :: f in s.buf.fired ==>
          f.item.arrival < |s.accepted| && NumericTick(f.item) <= GameTime(l, f.at) - late)
  }

  lemma DeliverKeepsOrder(env: Env, l: Level, late: real, s: Server, e: Event, now: real)
    requires 0.0 <= late <= TICK_RESET_THRESHOLD_S && PunctualInv(l, late, s) && Punctual(l, late, s, Deliver(e, now))
    requires FiredInOrder(l, late, s)
    ensures FiredInOrder(l, late, DeliverTo(env, s, e, now))
  {
    DeliverIsPunctual(env, l, late, s, e, now);
    var it := Numbered(env, s, e, now);
    InsertByTickMembers(s.buf.queue, it);
    assert NumericTick(it) >= GameTime(l, now) - late;
    assert forall f :: f in s.buf.fired ==> GameTime(l, f.at) <= GameTime(l, now);
    hide DeliverTo, GameTime, Punctual, PunctualInv;
    var q := InsertByTick(s.buf.queue, it);
    assert forall j :: 0 <= j < |q| ==> q[j] in q;
    assert |DeliverTo(env, s, e, now).accepted| == |s.accepted| + 1 by { DeliverAccepts(env, s, e, now); }
  }

  /** A queued event that is due has been shown, so no later punctual post can be below it. */
  lemma DueIsPast(cfg: Config, l: Level, late: real, sync: ServerSync, it: BufferedEvent, now: real)
    requires Covers(cfg, l) && 0.0 <= late && late + l.readLagSeconds <= l.delaySeconds
    requires ClocksAccurate(l, sync) && PunctualItem(l, late, it) && Due(cfg, sync, it, now)
    ensures NumericTick(it) <= GameTime(l, now) - late
  {
    DueNotEarly(cfg, l, sync, it, now);
  }

  lemma FiringKeepsOrder(log: seq<Fired>, q: seq<BufferedEvent>, m: nat, now: real)
    requires InOrder(log) && AllBefore(log, q) && QueueOrdered(q) && m <= |q|
    ensures InOrder(log + FireQueued(q[..m], now)) && AllBefore(log + FireQueued(q[..m], now), q[m..])
  {
    hide Before;
    var fires := FireQueued(q[..m], now);
    assert forall i :: 0 <= i < m ==> fires[i].item == q[i];
  }

  lemma FiringIsPast(cfg: Config, l: Level, late: real, s: Server, now: real, f: Fired)
    requires Covers(cfg, l) && 0.0 <= late && late + l.readLagSeconds <= l.delaySeconds
    requires PunctualInv(l, late, s) && QueueInv(s)
    requires f in FireQueued(s.buf.queue[..ReadyCount(cfg, s.sync, s.buf.queue, now)], now)
    ensures f.item.arrival < |s.accepted| && NumericTick(f.item) <= GameTime(l, f.at) - late
  {
    hide Due, ClocksAccurate, PunctualItem, Covers, Before, GameTime, NumericTick;
    var q := s.buf.queue;
    var m := ReadyCount(cfg, s.sync, q, now);
    var i :| 0 <= i < m && FireQueued(q[..m], now)[i] == f;
    assert q[i] in q;
    DueIsPast(cfg, l, late, s.sync, q[i], now);
  }

  lemma DriverKeepsOrder(env: Env, l: Level, late: real, s: Server, now: real)
    requires Covers(env.cfg, l) && 0.0 <= late && late + l.readLagSeconds <= l.delaySeconds
    requires PunctualInv(l, late, s) && QueueInv(s) && FiredInOrder(l, late, s)
    ensures FiredInOrder(l, late, Next(env, s, DriverTick(now)))
  {
    var q, log := s.buf.queue, s.buf.fired;
    var m := ReadyCount(env.cfg, s.sync, q, now);
    var fires := FireQueued(q[..m], now);
    forall f | f in fires ensures f.item.arrival < |s.accepted| && NumericTick(f.item) <= GameTime(l, f.at) - late {
      FiringIsPast(env.cfg, l, late, s, now, f);
    }
    FiringKeepsOrder(log, q, m, now);
    hide InOrder, AllBefore, QueueInv, Covers, GameTime, NumericTick, Due;
    var r := Next(env, s, DriverTick(now));
    assert r.buf.fired == log + fires && r.buf.queue == q[m..] && r.accepted == s.accepted;
  }

  lemma OthersKeepOrder(env: Env, l: Level, late: real, s: Server, a: Action)
    requires FiredInOrder(l, late, s) && PunctualInv(l, late, s) && Punctual(l, late, s, a)
    requires a.SampleOk? || a.SampleFail? || a.Calibrate? || a.StartSample?
    ensures FiredInOrder(l, late, Next(env, s, a))
  {
    if !a.StartSample? {
      SampleIsPunctual(env, l, late, s, a);
    }
    hide EmitClock, Before, GameTime, Punctual, PunctualInv;
    var q := Next(env, s, a).buf.queue;
    assert forall j :: 0 <= j < |q| ==> q[j] in s.buf.queue;
  }

  /** On punctual runs, when the proxy's delay covers the posts' lateness and the read lag, events fire in
      ascending order of tick, arrival order on ties, over the whole run. */
  lemma {:induction false} FiresInTickOrder(
      env: Env, l: Level, late: real, states: seq<Server>, acts: seq<Action>, k: nat)
    requires RunsFromStart(env, states, acts) && k < |states| && Covers(env.cfg, l)
    requires 0.0 <= late <= TICK_RESET_THRESHOLD_S && late + l.readLagSeconds <= l.delaySeconds
    requires forall i :: 0 <= i < k ==> Punctual(l, late, states[i], acts[i])
    ensures FiredInOrder(l, late, states[k])
  {
    hide Next, Punctual, Covers, QueueInv, Before, GameTime;
    if k > 0 {
      FiresInTickOrder(env, l, late, states, acts, k - 1);
      RunIsPunctual(env, l, late, states, acts, k - 1);
      RunKeepsQueue(env, states, acts, k - 1);
      hide PunctualInv, FiredInOrder;
      var s, a := states[k - 1], acts[k - 1];
      assert states[k] == Next(env, s, a);
      match a
      case Deliver(e, now) =>
        DeliverKeepsOrder(env, l, late, s, e, now);
        NextDelivers(env, s, e, now);
      case DriverTick(now) => DriverKeepsOrder(env, l, late, s, now);
      case _ => OthersKeepOrder(env, l, late, s, a);
    }
  }

  lemma NextDelivers(env: Env, s: Server, e: Event, now: real)
    ensures Next(env, s, Deliver(e, now)) == DeliverTo(env, s, e, now)
  {
  }
}
