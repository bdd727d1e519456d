/** Runs from the start in which an event fires before viewers reach it, one for each way it can happen, one in
    which a level is held for most of an hour, and one in which two levels fire out of order. Every post in them comes
    after it happened, every reply describes the level it was read from, and a level ends when the next is loaded. */
module HltvFailures {
  import opened Wrappers
  import opened HltvSync
  import opened HltvDelayBuffer
  import opened HltvPipeline
  import opened HltvLaws
  import opened HltvBoundary
  import opened HltvAccuracy
  import opened HltvEpochs
  import opened HltvOrderly
  import opened HltvSequence

  /** `s` ends a run of the world `w`, whose levels are broadcast in turn and well apart. */
  ghost predicate Reachable(env: Env, w: World, s: Server) {
    && Sensible(env.cfg, w) && WellApart(env.cfg, w)
    && exists states, acts :: RunsFromStart(env, states, acts) && states[|acts|] == s && AllWorldly(w, states, acts)
  }

  ghost predicate AllWorldly(w: World, states: seq<Server>, acts: seq<Action>) {
    && |states| == |acts| + 1
    && forall i :: 0 <= i < |acts| ==> Worldly(w, states[i], acts[i]) && InItsTime(w, states[i], acts[i])
  }

  /** Nothing happens in a level once the next is loaded, and it is not read after that. */
  ghost predicate InItsTime(w: World, s: Server, a: Action) {
    match a
    case Deliver(e, now) =>
      e.tick.Some? ==> e.tick.value <= GameTime(LevelOf(w, |s.accepted|), w.level(w.index(|s.accepted|) + 1).loadedAt)
    case SampleOk(status) =>
      s.sync.inflight.Some? ==>
        exists u, j: nat :: ReadIn(w.level(j), s, status, u) && u <= w.level(j + 1).loadedAt
    case _ => true
  }

  /** Some event has fired before viewers reached it, by more than the read lag. */
  ghost predicate FiredEarly(w: World, s: Server) { exists f :: f in s.buf.fired && !FireOk(w, f) }

  lemma RunExtends(env: Env, states: seq<Server>, acts: seq<Action>, a: Action)
    requires RunsFromStart(env, states, acts)
    ensures RunsFromStart(env, states + [Next(env, states[|acts|], a)], acts + [a])
  {
    hide Next;
    var more, done := states + [Next(env, states[|acts|], a)], acts + [a];
    forall i {:trigger done[i]} | 0 <= i < |done| ensures more[i + 1] == Next(env, more[i], done[i]) {
      if i < |acts| {
        assert acts[i] == done[i];
      }
    }
  }

  lemma ReachableStep(env: Env, w: World, s: Server, a: Action)
    requires Reachable(env, w, s) && Worldly(w, s, a) && InItsTime(w, s, a)
    ensures Reachable(env, w, Next(env, s, a))
  {
    hide Next, Worldly, InItsTime, Sensible, WellApart;
    var states, acts :| RunsFromStart(env, states, acts) && states[|acts|] == s && AllWorldly(w, states, acts);
    var more, done := states + [Next(env, s, a)], acts + [a];
    RunExtends(env, states, acts, a);
    hide RunsFromStart;
    assert AllWorldly(w, more, done);
  }

  lemma ReachableInv(env: Env, w: World, s: Server)
    requires Reachable(env, w, s)
    ensures QueueInv(s) && Conserved(s)
  {
    hide Next, Worldly, InItsTime, Sensible, WellApart;
    var states, acts :| RunsFromStart(env, states, acts) && states[|acts|] == s && AllWorldly(w, states, acts);
    RunKeepsQueue(env, states, acts, |acts|);
    RunConserves(env, states, acts, |acts|);
  }

  lemma DueDrainFires(b: ServerBuffer, x: DrainItem, now: real)
    requires SortedByRelease(b.draining) && x in b.draining && x.releaseAt <= now
    ensures Fired(x.item, now, Some(x.releaseAt)) in ReleaseDrain(b, now).fired
  {
    var n := DueCount(b.draining, now);
    var i :| 0 <= i < |b.draining| && b.draining[i] == x;
    assert i < n;
    var fires := FireDrained(b.draining[..n], now);
    assert fires[i] == Fired(x.item, now, Some(x.releaseAt));
  }

  /** A stamped event fires at the first driver tick past its stamp. */
  lemma StampedFires(env: Env, w: World, s: Server, x: DrainItem, now: real)
    requires Reachable(env, w, s) && x in s.buf.draining && x.releaseAt <= now
    requires !NotEarly(LevelOf(w, x.item.arrival), x.item, now)
    ensures FiredEarly(w, Next(env, s, DriverTick(now)))
  {
    hide NotEarly, QueueInv, Reachable, SortedByRelease, ReleaseDrain, Next;
    ReachableInv(env, w, s);
    InvSorted(s);
    DueDrainFires(s.buf, x, now);
    var f := Fired(x.item, now, Some(x.releaseAt));
    LogGrows(env, s, now, f);
    assert f.item == x.item && f.at == now;
  }

  lemma InvSorted(s: Server)
    requires QueueInv(s)
    ensures SortedByRelease(s.buf.draining)
  {
  }

  lemma LogGrows(env: Env, s: Server, now: real, f: Fired)
    requires f in ReleaseDrain(s.buf, now).fired
    ensures f in Next(env, s, DriverTick(now)).buf.fired
  {
  }

  /** A queued event fires at a driver tick with nothing to drain, if the clock has reached it. */
  lemma QueuedFires(env: Env, w: World, s: Server, it: BufferedEvent, now: real)
    requires s.buf.queue == [it] && s.buf.draining == [] && Due(env.cfg, s.sync, it, now)
    requires !NotEarly(LevelOf(w, it.arrival), it, now)
    ensures FiredEarly(w, Next(env, s, DriverTick(now)))
  {
    hide NotEarly, Due;
    var fires := FireQueued([it], now);
    assert ReadyCount(env.cfg, s.sync, [it], now) == 1;
    assert [it][..1] == [it];
    assert fires[0].item == it && fires[0].at == now;
    assert fires[0] in Next(env, s, DriverTick(now)).buf.fired;
  }

  // ---- The deployment of every run below ----

  const CFG := Config(true, {"s"}, 60.0, 0.0, 180.0)
  const ENV := Env(CFG, "s")

  /** The level loaded at `at`, with a minute's delay and a second's read lag. */
  function LoadedAt(at: real): Level { Level(at, 60.0, 1.0) }

  /** The first level is loaded at 0, the second at 100 s, the third at 160 s and more after it; posts 0 and 1 are of
      the first, the three after them of the second. */
  const W := World((j: nat) => LoadedAt(if j == 0 then 0.0 else 40000.0 + j as real * 60000.0),
                   (n: nat) => if n < 2 then 0 else if n < 5 then 1 else 2, "a")

  lemma Levels()
    ensures W.level(0) == LoadedAt(0.0) && W.level(1) == LoadedAt(100000.0) && W.level(2) == LoadedAt(160000.0)
    ensures W.level(3) == LoadedAt(220000.0)
    ensures forall n: nat :: W.index(n) == if n < 2 then 0 else if n < 5 then 1 else 2
  {
  }

  /** A post that comes no earlier than it happened, before the level after its own was loaded at `end`. */
  lemma Posted(w: World, s: Server, e: Event, now: real, end: real)
    requires Reachable(ENV, w, s) && w.level(w.index(|s.accepted|) + 1).loadedAt == end
    requires
      var l := LevelOf(w, |s.accepted|);
      e.tick.Some? ==> e.tick.value <= GameTime(l, now) && e.tick.value <= GameTime(l, end)
    ensures Reachable(ENV, w, Next(ENV, s, Deliver(e, now)))
  {
    hide Reachable, Next, GameTime;
    ReachableStep(ENV, w, s, Deliver(e, now));
  }

  /** A reply read from level `j`, loaded at `at`, the moment its sample begins, before the next is loaded. */
  lemma Replied(w: World, s: Server, j: nat, at: real, t: real)
    requires Reachable(ENV, w, s) && w.level(j) == LoadedAt(at) && t == t.Floor as real
    requires s.sync.inflight.Some? && t * 1000.0 == s.sync.inflight.value.sampledAt - at
    requires s.sync.inflight.value.sampledAt <= w.level(j + 1).loadedAt
    ensures Reachable(ENV, w, Next(ENV, s, SampleOk(RconStatus(60.0, t, "a"))))
  {
    hide Reachable, Next;
    var status := RconStatus(60.0, t, "a");
    assert ReadIn(w.level(j), s, status, s.sync.inflight.value.sampledAt);
    ReachableStep(ENV, w, s, SampleOk(status));
  }

  const CLOCK := ClockBasis(10.0, 10000.0, 60.0, 0.0)
  const NEW_CLOCK := ClockBasis(5.0, 105000.0, 60.0, 0.0)

  function Tick(t: real): Event { Event("kill", Some(t), "") }

  function Item(n: nat, t: real, at: real): BufferedEvent { BufferedEvent("s", Tick(t), at, n) }

  function Online(b: ClockBasis): Option<HltvClock> { Some(HltvClock(b, "a", true, "")) }

  lemma WorldIsSensible()
    ensures Sensible(CFG, W) && WellApart(CFG, W)
  {
    forall i: nat, j: nat | i < j ensures Apart(CFG, W.level(i), W.level(j)) {}
  }

  ghost predicate At(s: Server, sync: ServerSync, queue: seq<BufferedEvent>, n: nat) {
    s.sync == sync && s.buf.queue == queue && s.buf.draining == [] && |s.accepted| == n
  }

  const ITEM0 := Item(0, 10.0, 10000.0)
  const ITEM1 := Item(1, 40.0, 40000.0)
  const ITEM2 := Item(2, 5.0, 105000.0)
  const ITEM3 := Item(3, 40.0, 140000.0)

  const SEEN := ServerSync(true, None, Some(Sampling(10000.0, "lazy_init")), Some(10.0), None, None, None)
  const SAMPLED := ServerSync(true, Online(CLOCK), None, Some(10.0), None, None, None)
  const PLAYED := ServerSync(true, Online(CLOCK), None, Some(40.0), Some(CLOCK), None, None)

  lemma Starts(w: World)
    requires Sensible(CFG, w) && WellApart(CFG, w)
    ensures Reachable(ENV, w, INIT)
  {
    hide Sensible, WellApart;
    assert RunsFromStart(ENV, [INIT], []) && AllWorldly(w, [INIT], []);
  }

  lemma FirstPost() returns (r: Server)
    ensures Reachable(ENV, W, r) && At(r, SEEN, [ITEM0], 1)
  {
    WorldIsSensible();
    Levels();
    Starts(W);
    hide Reachable, W;
    Posted(W, INIT, Tick(10.0), 10000.0, 100000.0);
    r := Next(ENV, INIT, Deliver(Tick(10.0), 10000.0));
  }

  lemma FirstReply(s: Server) returns (r: Server)
    requires Reachable(ENV, W, s) && At(s, SEEN, [ITEM0], 1)
    ensures Reachable(ENV, W, r) && At(r, SAMPLED, [ITEM0], 1)
  {
    Levels();
    hide Reachable, W;
    Replied(W, s, 0, 0.0, 10.0);
    r := Next(ENV, s, SampleOk(RconStatus(60.0, 10.0, "a")));
  }

  /** A post of a later tick goes behind the one event in the queue. */
  lemma QueuesBehind(s: Server, sync: ServerSync, first: BufferedEvent, t: real, now: real)
    requires s.buf.queue == [first] && s.buf.draining == [] && 0.0 <= NumericTick(first) <= t
    requires OnIngestEvent(s.sync, Tick(t), now) == sync && !OldEpochTick(sync, t, now)
    ensures At(Next(ENV, s, Deliver(Tick(t), now)), sync, [first, Item(|s.accepted|, t, now)], |s.accepted| + 1)
  {
    hide OnIngestEvent, OldEpochTick;
    assert InsertByTick([first], Item(|s.accepted|, t, now)) == [first, Item(|s.accepted|, t, now)];
  }

  lemma PlayDetected()
    ensures OnIngestEvent(SAMPLED, Tick(40.0), 40000.0) == PLAYED && !OldEpochTick(PLAYED, 40.0, 40000.0)
  {
  }

  lemma SecondPost(s: Server) returns (r: Server)
    requires Reachable(ENV, W, s) && At(s, SAMPLED, [ITEM0], 1)
    ensures Reachable(ENV, W, r) && At(r, PLAYED, [ITEM0, ITEM1], 2)
  {
    var a := Deliver(Tick(40.0), 40000.0);
    Levels();
    PlayDetected();
    QueuesBehind(s, PLAYED, ITEM0, 40.0, 40000.0);
    hide Reachable, Next, SAMPLED, PLAYED, W;
    Posted(W, s, a.event, a.now, 100000.0);
    r := Next(ENV, s, a);
  }

  lemma OldEventsFire(s: Server) returns (r: Server)
    requires Reachable(ENV, W, s) && At(s, PLAYED, [ITEM0, ITEM1], 2)
    ensures Reachable(ENV, W, r) && At(r, PLAYED, [], 2)
  {
    hide Reachable, QueueInv, ReadyCount;
    var a := DriverTick(100000.0);
    ReachableInv(ENV, W, s);
    ReachableStep(ENV, W, s, a);
    r := Next(ENV, s, a);
    assert DueAt(CFG, s.sync, ITEM0) <= 100000.0 && DueAt(CFG, s.sync, ITEM1) <= 100000.0;
    DriverTickReleases(ENV, s, 100000.0);
  }

  /** Forty seconds of the old level, all of it shown. */
  lemma OldLevel() returns (s: Server)
    ensures Reachable(ENV, W, s) && At(s, PLAYED, [], 2)
  {
    hide Reachable, At, PLAYED, SAMPLED, SEEN, ITEM0, ITEM1;
    s := FirstPost();
    s := FirstReply(s);
    s := SecondPost(s);
    s := OldEventsFire(s);
  }

  // ---- A post of the new level taken for the old one's ----

  const BOUND := ServerSync(true, Some(HltvClock(CLOCK, "a", false, "")), Some(Sampling(105000.0, "tick_reset")),
                            Some(5.0), Some(CLOCK), Some(CLOCK), Some(Boundary(105000.0, 40.0)))
  const LOST := BOUND.(clock := Some(HltvClock(CLOCK, "a", false, "timeout")), inflight := None)

  lemma ResetDetected()
    ensures OnIngestEvent(PLAYED, Tick(5.0), 105000.0) == BOUND
    ensures !OldEpochTick(BOUND, 5.0, 105000.0)
  {
  }

  /** The post that reveals a boundary, alone in the queue. */
  lemma QueuesAlone(s: Server, sync: ServerSync)
    requires s.buf.queue == [] && s.buf.draining == [] && |s.accepted| == 2
    requires OnIngestEvent(s.sync, Tick(5.0), 105000.0) == sync && !OldEpochTick(sync, 5.0, 105000.0)
    ensures At(Next(ENV, s, Deliver(Tick(5.0), 105000.0)), sync, [ITEM2], 3)
  {
    hide OnIngestEvent, OldEpochTick;
  }

  lemma BoundarySeen(s: Server) returns (r: Server)
    requires Reachable(ENV, W, s) && At(s, PLAYED, [], 2)
    ensures Reachable(ENV, W, r) && At(r, BOUND, [ITEM2], 3)
  {
    var a := Deliver(Tick(5.0), 105000.0);
    Levels();
    ResetDetected();
    QueuesAlone(s, BOUND);
    hide Reachable, Next, PLAYED, BOUND, ITEM2, W;
    Posted(W, s, a.event, a.now, 160000.0);
    r := Next(ENV, s, a);
  }

  lemma ForcedSampleFails(s: Server) returns (r: Server)
    requires Reachable(ENV, W, s) && At(s, BOUND, [ITEM2], 3)
    ensures Reachable(ENV, W, r) && At(r, LOST, [ITEM2], 3)
  {
    hide Reachable;
    var a := SampleFail("timeout");
    ReachableStep(ENV, W, s, a);
    r := Next(ENV, s, a);
  }

  lemma TakenForOld()
    ensures OnIngestEvent(LOST, Tick(60.0), 160000.0) == LOST && OldEpochTick(LOST, 60.0, 160000.0)
  {
  }

  lemma StragglerDrains(s: Server)
    requires At(s, LOST, [ITEM2], 3)
    ensures DrainItem(Item(3, 60.0, 160000.0), 120000.0) in Next(ENV, s, Deliver(Tick(60.0), 160000.0)).buf.draining
  {
    var a, it := Deliver(Tick(60.0), 160000.0), Item(3, 60.0, 160000.0);
    TakenForOld();
    StampIn(ENV, s, [it], it);
    hide OnIngestEvent, OldEpochTick, DrainTail;
    assert Next(ENV, s, a).buf == DrainTail(CFG, s.sync, s.buf, [it]);
  }

  lemma TakenForStraggler(s: Server) returns (r: Server)
    requires Reachable(ENV, W, s) && At(s, LOST, [ITEM2], 3)
    ensures Reachable(ENV, W, r) && DrainItem(Item(3, 60.0, 160000.0), 120000.0) in r.buf.draining
  {
    Levels();
    StragglerDrains(s);
    hide Reachable, Next, LOST, ITEM2, W;
    Posted(W, s, Tick(60.0), 160000.0, 160000.0);
    r := Next(ENV, s, Deliver(Tick(60.0), 160000.0));
  }

  /** With the forced sample lost, a post on time 55 s after the boundary fires a minute early. */
  lemma MistakenPostFiresEarly() returns (s: Server)
    ensures Reachable(ENV, W, s) && FiredEarly(W, s)
  {
    hide Reachable, At, Next, PLAYED, BOUND, LOST, ITEM2, FiredEarly;
    s := OldLevel();
    s := BoundarySeen(s);
    s := ForcedSampleFails(s);
    s := TakenForStraggler(s);
    StampedFires(ENV, W, s, DrainItem(Item(3, 60.0, 160000.0), 120000.0), 160000.0);
    ReachableStep(ENV, W, s, DriverTick(160000.0));
    s := Next(ENV, s, DriverTick(160000.0));
  }

  // ---- Ordinary play of the new level, then one wrong step ----

  const RESYNCED := BOUND.(clock := Online(NEW_CLOCK), inflight := None)
  const RESUMED := RESYNCED.(highestEventTick := Some(40.0), lastEventClock := Some(NEW_CLOCK))

  lemma ForcedSampleAnswers(s: Server) returns (r: Server)
    requires Reachable(ENV, W, s) && At(s, BOUND, [ITEM2], 3)
    ensures Reachable(ENV, W, r) && At(r, RESYNCED, [ITEM2], 3)
  {
    Levels();
    hide Reachable, W;
    Replied(W, s, 1, 100000.0, 5.0);
    r := Next(ENV, s, SampleOk(RconStatus(60.0, 5.0, "a")));
  }

  lemma NewPlayDetected()
    ensures OnIngestEvent(RESYNCED, Tick(40.0), 140000.0) == RESUMED && !OldEpochTick(RESUMED, 40.0, 140000.0)
  {
  }

  lemma NewPost(s: Server) returns (r: Server)
    requires Reachable(ENV, W, s) && At(s, RESYNCED, [ITEM2], 3)
    ensures Reachable(ENV, W, r) && At(r, RESUMED, [ITEM2, ITEM3], 4)
  {
    var a := Deliver(Tick(40.0), 140000.0);
    Levels();
    NewPlayDetected();
    QueuesBehind(s, RESUMED, ITEM2, 40.0, 140000.0);
    hide Reachable, Next, RESYNCED, RESUMED, W;
    Posted(W, s, a.event, a.now, 160000.0);
    r := Next(ENV, s, a);
  }

  lemma NewLevel() returns (s: Server)
    ensures Reachable(ENV, W, s) && At(s, RESUMED, [ITEM2, ITEM3], 4)
  {
    hide Reachable, At, PLAYED, BOUND, RESYNCED, RESUMED, ITEM2, ITEM3;
    s := OldLevel();
    s := BoundarySeen(s);
    s := ForcedSampleAnswers(s);
    s := NewPost(s);
  }

  /** The event of tick 40 stamped off the old level's clock. */
  const STRAY := DrainItem(ITEM3, 100000.0)

  lemma StrayFires(s: Server, now: real) returns (r: Server)
    requires Reachable(ENV, W, s) && STRAY in s.buf.draining && 100000.0 <= now <= 190000.0
    ensures Reachable(ENV, W, r) && FiredEarly(W, r)
  {
    Levels();
    hide Reachable, Next, FiredEarly, W;
    StampedFires(ENV, W, s, STRAY, now);
    ReachableStep(ENV, W, s, DriverTick(now));
    r := Next(ENV, s, DriverTick(now));
  }

  lemma TicklessPost(s: Server) returns (r: Server)
    requires Reachable(ENV, W, s) && At(s, RESUMED, [ITEM2, ITEM3], 4)
    ensures Reachable(ENV, W, r) && STRAY in r.buf.draining
  {
    Levels();
    hide Reachable, W;
    var a := Deliver(Event("chat", None, ""), 141000.0);
    Posted(W, s, a.event, a.now, 160000.0);
    r := Next(ENV, s, a);
    assert ITEM3 == s.buf.queue[1];
    StampIn(ENV, s, s.buf.queue, ITEM3);
  }

  /** A post without a tick counts as tick 0: it evicts the queue, and an event fires a minute early. */
  lemma TicklessPostFiresEarly() returns (s: Server)
    ensures Reachable(ENV, W, s) && FiredEarly(W, s)
  {
    hide Reachable, At, RESUMED, ITEM2, ITEM3, STRAY, FiredEarly;
    s := NewLevel();
    s := TicklessPost(s);
    s := StrayFires(s, 141000.0);
  }

  lemma EmissionDrains(s: Server)
    requires At(s, RESUMED, [ITEM2, ITEM3], 4)
    ensures STRAY in EmitClock(ENV, s).buf.draining
  {
    assert ITEM3 == s.buf.queue[1] && Stranded(ITEM3, 5.0);
    var stranded := Sift(s.buf.queue, 5.0, true);
    assert ITEM3 in stranded;
    hide Sift, DrainTail, Stranded, OldEpochTick;
    StampIn(ENV, s.(buf := s.buf.(queue := Sift(s.buf.queue, 5.0, false))), stranded, ITEM3);
  }

  lemma ZeroIsNothing(s: Server)
    requires s.sync == RESUMED
    ensures s.(sync := SetCalibration(s.sync, 0.0)) == s
  {
  }

  lemma Recalibrated(s: Server) returns (r: Server)
    requires Reachable(ENV, W, s) && At(s, RESUMED, [ITEM2, ITEM3], 4)
    ensures Reachable(ENV, W, r) && STRAY in r.buf.draining
  {
    EmissionDrains(s);
    ZeroIsNothing(s);
    hide Reachable, EmitClock, RESUMED, ITEM2, ITEM3, STRAY, SetCalibration;
    var a := Calibrate(0.0);
    ReachableStep(ENV, W, s, a);
    r := Next(ENV, s, a);
  }

  /** Setting the calibration, even to what it is, rescues against a game time that is 35 s old. */
  lemma RecalibrationFiresEarly() returns (s: Server)
    ensures Reachable(ENV, W, s) && FiredEarly(W, s)
  {
    hide Reachable, At, RESUMED, ITEM2, ITEM3, STRAY, FiredEarly;
    s := NewLevel();
    s := Recalibrated(s);
    s := StrayFires(s, 141000.0);
  }

  const WAITING := RESUMED.(inflight := Some(Sampling(141000.0, "heartbeat")))

  lemma SilenceIsNothing(s: Server)
    requires s.sync == RESUMED
    ensures s.(sync := HltvSync.StartSample(s.sync, "heartbeat", 141000.0)) == s.(sync := WAITING)
    ensures s.(sync := HltvSync.SampleFail(CFG, WAITING, "")) == s
  {
  }

  lemma FailedSilently(s: Server) returns (r: Server)
    requires Reachable(ENV, W, s) && At(s, RESUMED, [ITEM2, ITEM3], 4)
    ensures Reachable(ENV, W, r) && STRAY in r.buf.draining
  {
    EmissionDrains(s);
    SilenceIsNothing(s);
    assert WAITING.inflight.Some?;
    hide Reachable, EmitClock, RESUMED, WAITING, ITEM2, ITEM3, STRAY, HltvSync.StartSample, HltvSync.SampleFail;
    var a, b := StartSample("heartbeat", 141000.0), SampleFail("");
    ReachableStep(ENV, W, s, a);
    r := Next(ENV, s, a);
    ReachableStep(ENV, W, r, b);
    assert r.(sync := HltvSync.SampleFail(CFG, WAITING, "")) == s.(sync := HltvSync.SampleFail(CFG, WAITING, ""));
    r := Next(ENV, r, b);
  }

  /** A failure with an empty message coasts as if it had succeeded, and rescues against the old game time. */
  lemma SilentFailureFiresEarly() returns (s: Server)
    ensures Reachable(ENV, W, s) && FiredEarly(W, s)
  {
    hide Reachable, At, RESUMED, ITEM2, ITEM3, STRAY, FiredEarly;
    s := NewLevel();
    s := FailedSilently(s);
    s := StrayFires(s, 141000.0);
  }

  // ---- The next change of level ----

  const AGAIN := RESUMED.(clock := Online(ClockBasis(4.0, 164000.0, 60.0, 0.0)))

  lemma RescueDrains(s: Server)
    requires s.sync == AGAIN && s.buf.queue == [ITEM2, ITEM3]
    ensures STRAY in EmitClock(ENV, s).buf.draining
  {
    assert ITEM3 == s.buf.queue[1] && Stranded(ITEM3, 4.0);
    var stranded := Sift(s.buf.queue, 4.0, true);
    assert ITEM3 in stranded;
    hide Sift, DrainTail, Stranded, OldEpochTick;
    StampIn(ENV, s.(buf := s.buf.(queue := Sift(s.buf.queue, 4.0, false))), stranded, ITEM3);
  }

  lemma NextLevelAnswers(s: Server) returns (r: Server)
    requires Reachable(ENV, W, s) && At(s, RESUMED, [ITEM2, ITEM3], 4)
    ensures Reachable(ENV, W, r) && STRAY in r.buf.draining
  {
    var a, b := StartSample("heartbeat", 164000.0), SampleOk(RconStatus(60.0, 4.0, "a"));
    Levels();
    hide Reachable, W;
    var t := Next(ENV, s, a);
    ReachableStep(ENV, W, s, a);
    assert t.sync.inflight == Some(Sampling(164000.0, "heartbeat")) && t.buf == s.buf;
    Replied(W, t, 2, 160000.0, 4.0);
    var u := t.(sync := HltvSync.SampleOk(t.sync, b.status));
    assert u.sync == AGAIN;
    hide EmitClock, HltvSync.SampleOk, HltvSync.StartSample, AGAIN, RESUMED, ITEM2, ITEM3, STRAY;
    RescueDrains(u);
    r := Next(ENV, t, b);
  }

  /** At a second change of level, with every post on time: a reply of the third level that comes before its first
      post strands the second level's tail, which is stamped off the first level's clock and fires a minute early. */
  lemma NextReplyFiresEarly() returns (s: Server)
    ensures Reachable(ENV, W, s) && FiredEarly(W, s)
  {
    hide Reachable, At, RESUMED, ITEM2, ITEM3, STRAY, FiredEarly;
    s := NewLevel();
    s := NextLevelAnswers(s);
    s := StrayFires(s, 165000.0);
  }

  const ITEM30 := Item(3, 30.0, 130000.0)
  const ITEM44 := Item(4, 44.0, 144000.0)
  const HALFWAY := LOST.(highestEventTick := Some(30.0))
  const UNPAIRED := LOST.(highestEventTick := Some(44.0))

  lemma UnpairedDetected()
    ensures OnIngestEvent(LOST, Tick(30.0), 130000.0) == HALFWAY && !OldEpochTick(HALFWAY, 30.0, 130000.0)
    ensures OnIngestEvent(HALFWAY, Tick(44.0), 144000.0) == UNPAIRED && !OldEpochTick(UNPAIRED, 44.0, 144000.0)
  {
  }

  lemma UnpairedPosts(s: Server) returns (r: Server)
    requires Reachable(ENV, W, s) && At(s, LOST, [ITEM2], 3)
    ensures Reachable(ENV, W, r) && At(r, UNPAIRED, [ITEM2, ITEM30, ITEM44], 5)
  {
    Levels();
    UnpairedDetected();
    QueuesBehind(s, HALFWAY, ITEM2, 30.0, 130000.0);
    var t := Next(ENV, s, Deliver(Tick(30.0), 130000.0));
    QueuesThird(t, UNPAIRED, ITEM2, ITEM30, 44.0, 144000.0);
    hide Reachable, Next, LOST, HALFWAY, UNPAIRED, W;
    Posted(W, s, Tick(30.0), 130000.0, 160000.0);
    Posted(W, t, Tick(44.0), 144000.0, 160000.0);
    r := Next(ENV, t, Deliver(Tick(44.0), 144000.0));
  }

  lemma QueuesThird(s: Server, sync: ServerSync, first: BufferedEvent, second: BufferedEvent, t: real, now: real)
    requires s.buf.queue == [first, second] && s.buf.draining == [] && 0.0 <= NumericTick(second) <= t
    requires OnIngestEvent(s.sync, Tick(t), now) == sync && !OldEpochTick(sync, t, now)
    ensures At(Next(ENV, s, Deliver(Tick(t), now)), sync, [first, second, Item(|s.accepted|, t, now)], |s.accepted| + 1)
  {
    hide OnIngestEvent, OldEpochTick;
    assert InsertByTick([first, second], Item(|s.accepted|, t, now)) == [first, second, Item(|s.accepted|, t, now)];
  }

  const UNPAIRED_BOUND := UNPAIRED.(inflight := Some(Sampling(164000.0, "tick_reset")), highestEventTick := Some(4.0),
                                    lastBoundary := Some(Boundary(164000.0, 44.0)))

  lemma UnpairedReset()
    ensures OnIngestEvent(UNPAIRED, Tick(4.0), 164000.0) == UNPAIRED_BOUND
    ensures !OldEpochTick(UNPAIRED_BOUND, 4.0, 164000.0)
    ensures ProjectReleaseAt(CFG, ITEM44, TailBasis(UNPAIRED_BOUND)) == 104000.0
  {
  }

  lemma UnpairedEvicts(s: Server)
    requires At(s, UNPAIRED, [ITEM2, ITEM30, ITEM44], 5)
    ensures DrainItem(ITEM44, 104000.0) in Next(ENV, s, Deliver(Tick(4.0), 164000.0)).buf.draining
  {
    UnpairedReset();
    var q := s.buf.queue;
    assert ITEM44 == q[2] && TailFarAbove(q, 4.0);
    StampIn(ENV, s.(sync := UNPAIRED_BOUND), q, ITEM44);
    hide OnIngestEvent, OldEpochTick, DrainTail, TailFarAbove, ProjectReleaseAt, UNPAIRED, UNPAIRED_BOUND, ITEM44;
  }

  /** At a second change of level, with the clock offline throughout the second: its tail is stamped off the first
      level's clock and fires a minute early. */
  lemma UnpairedLevelFiresEarly() returns (s: Server)
    ensures Reachable(ENV, W, s) && FiredEarly(W, s)
  {
    hide Reachable, At, PLAYED, BOUND, LOST, UNPAIRED, ITEM2, ITEM30, FiredEarly;
    s := OldLevel();
    s := BoundarySeen(s);
    s := ForcedSampleFails(s);
    s := UnpairedPosts(s);
    UnpairedEvicts(s);
    s := ThirdLevelOpens(s);
    Levels();
    hide W;
    StampedFires(ENV, W, s, DrainItem(ITEM44, 104000.0), 165000.0);
    ReachableStep(ENV, W, s, DriverTick(165000.0));
    s := Next(ENV, s, DriverTick(165000.0));
  }

  lemma ThirdLevelOpens(s: Server) returns (r: Server)
    requires Reachable(ENV, W, s) && At(s, UNPAIRED, [ITEM2, ITEM30, ITEM44], 5)
    ensures Reachable(ENV, W, r) && r == Next(ENV, s, Deliver(Tick(4.0), 164000.0))
  {
    Levels();
    hide Reachable, Next, W, UNPAIRED;
    Posted(W, s, Tick(4.0), 164000.0, 220000.0);
    r := Next(ENV, s, Deliver(Tick(4.0), 164000.0));
  }

  // ---- The old level's clock online for the new level ----

  const ASKED := PLAYED.(inflight := Some(Sampling(100000.0, "heartbeat")))
  const JOINED := BOUND.(inflight := ASKED.inflight)
  const OLD_CLOCK := ClockBasis(100.0, 100000.0, 60.0, 0.0)

  lemma HeartbeatBegins(s: Server) returns (r: Server)
    requires Reachable(ENV, W, s) && At(s, PLAYED, [], 2)
    ensures Reachable(ENV, W, r) && At(r, ASKED, [], 2)
  {
    hide Reachable;
    var a := StartSample("heartbeat", 100000.0);
    ReachableStep(ENV, W, s, a);
    r := Next(ENV, s, a);
  }

  lemma ResetJoinsHeartbeat()
    ensures OnIngestEvent(ASKED, Tick(5.0), 105000.0) == JOINED
    ensures !OldEpochTick(JOINED, 5.0, 105000.0)
  {
  }

  lemma BoundaryJoinsHeartbeat(s: Server) returns (r: Server)
    requires Reachable(ENV, W, s) && At(s, ASKED, [], 2)
    ensures Reachable(ENV, W, r) && At(r, JOINED, [ITEM2], 3)
  {
    var a := Deliver(Tick(5.0), 105000.0);
    Levels();
    ResetJoinsHeartbeat();
    QueuesAlone(s, JOINED);
    hide Reachable, Next, ASKED, JOINED, ITEM2, W;
    Posted(W, s, a.event, a.now, 160000.0);
    r := Next(ENV, s, a);
  }

  lemma OldReplyArrives(s: Server) returns (r: Server)
    requires Reachable(ENV, W, s) && At(s, JOINED, [ITEM2], 3)
    ensures Reachable(ENV, W, r) && At(r, JOINED.(clock := Online(OLD_CLOCK), inflight := None), [ITEM2], 3)
  {
    Levels();
    hide Reachable, W;
    Replied(W, s, 0, 0.0, 100.0);
    r := Next(ENV, s, SampleOk(RconStatus(60.0, 100.0, "a")));
  }

  /** The boundary's forced sample joins one that read the old level: its clock is back online, and the first
      event of the new level fires a minute early. */
  lemma OldReadingFiresEarly() returns (s: Server)
    ensures Reachable(ENV, W, s) && FiredEarly(W, s)
  {
    s := OldLevel();
    hide Reachable, Next, FiredEarly;
    s := HeartbeatBegins(s);
    s := BoundaryJoinsHeartbeat(s);
    s := OldReplyArrives(s);
    QueuedFires(ENV, W, s, ITEM2, 106000.0);
    ReachableStep(ENV, W, s, DriverTick(106000.0));
    s := Next(ENV, s, DriverTick(106000.0));
  }

  const OTHER_MAP := BufferedEvent("s", Event("kill", Some(5.0), "b"), 105000.0, 2)

  lemma MapChanges(s: Server) returns (r: Server)
    requires Reachable(ENV, W, s) && At(s, PLAYED, [], 2)
    ensures Reachable(ENV, W, r) && r.sync.clock == Online(CLOCK)
    ensures r.buf.queue == [OTHER_MAP] && r.buf.draining == []
  {
    Levels();
    hide Reachable, W;
    var a := Deliver(Event("kill", Some(5.0), "b"), 105000.0);
    Posted(W, s, a.event, a.now, 160000.0);
    r := Next(ENV, s, a);
  }

  /** A map change leaves the old map's clock online, and the event that reveals it fires a minute early. */
  lemma MapChangeFiresEarly() returns (s: Server)
    ensures Reachable(ENV, W, s) && FiredEarly(W, s)
  {
    s := OldLevel();
    hide Reachable, Next, FiredEarly;
    s := MapChanges(s);
    QueuedFires(ENV, W, s, OTHER_MAP, 106000.0);
    ReachableStep(ENV, W, s, DriverTick(106000.0));
    s := Next(ENV, s, DriverTick(106000.0));
  }

  // ---- A stalled post of the old level behind a reading of the new ----

  /** The first level is loaded at 0 and the second at 3000 s; posts 0 and 1 are of the first. */
  const SLOW := World((j: nat) => LoadedAt(j as real * 3000000.0), (n: nat) => if n < 2 then 0 else 1, "a")

  lemma SlowIsSensible()
    ensures Sensible(CFG, SLOW) && WellApart(CFG, SLOW)
  {
    forall i: nat, j: nat | i < j ensures Apart(CFG, SLOW.level(i), SLOW.level(j)) {}
  }

  const LAST := Item(0, 2900.0, 2900000.0)
  const STALLED := Item(1, 2990.0, 3015000.0)
  const OPENING := Item(2, 20.0, 3020000.0)

  const SLOW_SEEN := ServerSync(true, None, Some(Sampling(2900000.0, "lazy_init")), Some(2900.0), None, None, None)
  const SLOW_CLOCK := ClockBasis(2900.0, 2900000.0, 60.0, 0.0)
  const SLOW_SAMPLED := SLOW_SEEN.(clock := Online(SLOW_CLOCK), inflight := None)
  const SLOW_ASKED := SLOW_SAMPLED.(inflight := Some(Sampling(3010000.0, "heartbeat")))
  const TURNED_CLOCK := ClockBasis(10.0, 3010000.0, 60.0, 0.0)
  const TURNED := SLOW_SAMPLED.(clock := Online(TURNED_CLOCK))
  const POISONED := TURNED.(highestEventTick := Some(2990.0), lastEventClock := Some(TURNED_CLOCK))
  const SLOW_BOUND := ServerSync(true, Some(HltvClock(TURNED_CLOCK, "a", false, "")),
                                 Some(Sampling(3020000.0, "tick_reset")), Some(20.0), Some(TURNED_CLOCK),
                                 Some(TURNED_CLOCK), Some(Boundary(3020000.0, 2990.0)))

  lemma SlowLevels()
    ensures SLOW.level(0) == LoadedAt(0.0) && SLOW.level(1) == LoadedAt(3000000.0)
    ensures SLOW.level(2) == LoadedAt(6000000.0) && forall n: nat :: SLOW.index(n) == if n < 2 then 0 else 1
  {
  }

  lemma SlowPost() returns (s: Server)
    ensures Reachable(ENV, SLOW, s) && At(s, SLOW_SEEN, [LAST], 1)
  {
    SlowIsSensible();
    SlowLevels();
    Starts(SLOW);
    hide Reachable, SLOW;
    Posted(SLOW, INIT, Tick(2900.0), 2900000.0, 3000000.0);
    s := Next(ENV, INIT, Deliver(Tick(2900.0), 2900000.0));
  }

  lemma SlowReply(s: Server) returns (r: Server)
    requires Reachable(ENV, SLOW, s) && At(s, SLOW_SEEN, [LAST], 1)
    ensures Reachable(ENV, SLOW, r) && At(r, SLOW_SAMPLED, [LAST], 1)
  {
    SlowLevels();
    hide Reachable, SLOW;
    Replied(SLOW, s, 0, 0.0, 2900.0);
    r := Next(ENV, s, SampleOk(RconStatus(60.0, 2900.0, "a")));
  }

  lemma LastFires(s: Server) returns (r: Server)
    requires Reachable(ENV, SLOW, s) && At(s, SLOW_SAMPLED, [LAST], 1)
    ensures Reachable(ENV, SLOW, r) && At(r, SLOW_SAMPLED, [], 1)
  {
    hide Reachable, QueueInv, ReadyCount;
    var a := DriverTick(2960000.0);
    ReachableInv(ENV, SLOW, s);
    ReachableStep(ENV, SLOW, s, a);
    r := Next(ENV, s, a);
    assert DueAt(CFG, s.sync, LAST) <= 2960000.0;
    DriverTickReleases(ENV, s, 2960000.0);
  }

  /** A heartbeat ten seconds into the new level. */
  lemma HeartbeatTurns(s: Server) returns (r: Server)
    requires Reachable(ENV, SLOW, s) && At(s, SLOW_SAMPLED, [], 1)
    ensures Reachable(ENV, SLOW, r) && At(r, TURNED, [], 1)
  {
    SlowLevels();
    hide Reachable, SLOW;
    var a := StartSample("heartbeat", 3010000.0);
    ReachableStep(ENV, SLOW, s, a);
    var t := Next(ENV, s, a);
    assert At(t, SLOW_ASKED, [], 1);
    Replied(SLOW, t, 1, 3000000.0, 10.0);
    r := Next(ENV, t, SampleOk(RconStatus(60.0, 10.0, "a")));
  }

  /** The old level's last post, 25 s late, is paired with the new level's clock. */
  lemma StalledPost(s: Server) returns (r: Server)
    requires Reachable(ENV, SLOW, s) && At(s, TURNED, [], 1)
    ensures Reachable(ENV, SLOW, r) && At(r, POISONED, [STALLED], 2)
  {
    SlowLevels();
    hide Reachable, SLOW;
    Posted(SLOW, s, Tick(2990.0), 3015000.0, 3000000.0);
    r := Next(ENV, s, Deliver(Tick(2990.0), 3015000.0));
  }

  lemma SlowReset()
    ensures OnIngestEvent(POISONED, Tick(20.0), 3020000.0) == SLOW_BOUND
    ensures !OldEpochTick(SLOW_BOUND, 20.0, 3020000.0)
    ensures ProjectReleaseAt(CFG, STALLED, TailBasis(SLOW_BOUND)) == 6050000.0
  {
  }

  lemma Opens(s: Server) returns (r: Server)
    requires Reachable(ENV, SLOW, s) && At(s, POISONED, [STALLED], 2)
    ensures Reachable(ENV, SLOW, r) && r.sync == SLOW_BOUND
    ensures r.buf.queue == [OPENING] && r.buf.draining == [DrainItem(STALLED, 6050000.0)]
  {
    SlowReset();
    var a := Deliver(Tick(20.0), 3020000.0);
    assert TailFarAbove([STALLED], 20.0);
    assert Numbered(ENV, s, a.event, a.now) == OPENING;
    SlowLevels();
    hide Reachable, OnIngestEvent, OldEpochTick, TailFarAbove, ProjectReleaseAt, POISONED, SLOW_BOUND, SLOW;
    Posted(SLOW, s, a.event, a.now, 6000000.0);
    r := Next(ENV, s, a);
    assert [STALLED][..0] == [];
    assert Stamp(CFG, [STALLED], TailBasis(SLOW_BOUND)) == [DrainItem(STALLED, 6050000.0)];
    assert SortByRelease([DrainItem(STALLED, 6050000.0)]) == [DrainItem(STALLED, 6050000.0)] by {
      assert [DrainItem(STALLED, 6050000.0)][..0] == [];
    }
  }

  /** The forced sample is answered, and its rescue finds nothing. */
  lemma ForcedSampleConfirms(s: Server) returns (r: Server)
    requires Reachable(ENV, SLOW, s) && s.sync == SLOW_BOUND
    requires s.buf.queue == [OPENING] && s.buf.draining == [DrainItem(STALLED, 6050000.0)]
    ensures Reachable(ENV, SLOW, r) && r.sync.clock.Some? && r.sync.clock.value.online
    ensures r.buf.queue == [OPENING] && r.buf.draining == [DrainItem(STALLED, 6050000.0)]
  {
    SlowLevels();
    hide Reachable, SLOW;
    Replied(SLOW, s, 1, 3000000.0, 20.0);
    r := Next(ENV, s, SampleOk(RconStatus(60.0, 20.0, "a")));
    assert [OPENING][..0] == [];
    assert Sift([OPENING], 20.0, true) == [] && Sift([OPENING], 20.0, false) == [OPENING];
  }

  /** A post of the old level that stalls past a heartbeat of the new one makes the old tail wait for the new
      level to reach its tick; and all of the new level waits behind it, here for 49 minutes. */
  lemma StalledPostHoldsNewLevel() returns (s: Server, r: Server)
    ensures Reachable(ENV, SLOW, s) && s.sync.clock.Some? && s.sync.clock.value.online
    ensures r == Next(ENV, s, DriverTick(6040000.0))
    ensures OPENING in r.buf.queue && IndexOf(SLOW, OPENING) == 1
    ensures ShownAt(SLOW.level(1), OPENING) + 49.0 * 60000.0 <= 6040000.0
  {
    hide Reachable, At, SLOW_SEEN, SLOW_SAMPLED, TURNED, POISONED, LAST, STALLED;
    s := SlowPost();
    s := SlowReply(s);
    s := LastFires(s);
    s := HeartbeatTurns(s);
    s := StalledPost(s);
    s := Opens(s);
    s := ForcedSampleConfirms(s);
    r := Next(ENV, s, DriverTick(6040000.0));
  }

  // ---- A late post ahead of the level before ----

  /** A level each hundred seconds; posts 0 and 1 are of the first. */
  const SHORT := World((j: nat) => LoadedAt(j as real * 100000.0), (n: nat) => if n < 2 then 0 else 1, "a")

  lemma ShortLevels()
    ensures Sensible(CFG, SHORT) && WellApart(CFG, SHORT)
    ensures SHORT.level(0) == LoadedAt(0.0) && SHORT.level(1) == LoadedAt(100000.0)
    ensures SHORT.level(2) == LoadedAt(200000.0) && forall n: nat :: SHORT.index(n) == if n < 2 then 0 else 1
  {
    forall i: nat, j: nat | i < j ensures Apart(CFG, SHORT.level(i), SHORT.level(j)) {}
  }

  const FIRST := Item(0, 50.0, 50000.0)
  const OLD25 := Item(1, 25.0, 120000.0)
  const NEW15 := Item(2, 15.0, 126000.0)

  const SHORT_CLOCK := ClockBasis(50.0, 50000.0, 60.0, 0.0)
  const SHORT_SEEN := ServerSync(true, None, Some(Sampling(50000.0, "lazy_init")), Some(50.0), None, None, None)
  const SHORT_SAMPLED := SHORT_SEEN.(clock := Online(SHORT_CLOCK), inflight := None)
  const SHORT_PAIRED := SHORT_SAMPLED.(lastEventClock := Some(SHORT_CLOCK))
  const SHORT_BOUND := ServerSync(true, Some(HltvClock(SHORT_CLOCK, "a", false, "")),
                                  Some(Sampling(126000.0, "tick_reset")), Some(15.0), Some(SHORT_CLOCK),
                                  Some(SHORT_CLOCK), Some(Boundary(126000.0, 50.0)))

  lemma ShortPost() returns (s: Server)
    ensures Reachable(ENV, SHORT, s) && At(s, SHORT_SEEN, [FIRST], 1)
  {
    ShortLevels();
    Starts(SHORT);
    hide Reachable, SHORT;
    Posted(SHORT, INIT, Tick(50.0), 50000.0, 100000.0);
    s := Next(ENV, INIT, Deliver(Tick(50.0), 50000.0));
  }

  lemma ShortReply(s: Server) returns (r: Server)
    requires Reachable(ENV, SHORT, s) && At(s, SHORT_SEEN, [FIRST], 1)
    ensures Reachable(ENV, SHORT, r) && At(r, SHORT_SAMPLED, [FIRST], 1)
  {
    ShortLevels();
    hide Reachable, SHORT;
    Replied(SHORT, s, 0, 0.0, 50.0);
    r := Next(ENV, s, SampleOk(RconStatus(60.0, 50.0, "a")));
  }

  lemma ShortFires(s: Server) returns (r: Server)
    requires Reachable(ENV, SHORT, s) && At(s, SHORT_SAMPLED, [FIRST], 1)
    ensures Reachable(ENV, SHORT, r) && At(r, SHORT_SAMPLED, [], 1)
  {
    hide Reachable, QueueInv, ReadyCount, SHORT;
    var a := DriverTick(112000.0);
    ReachableInv(ENV, SHORT, s);
    ReachableStep(ENV, SHORT, s, a);
    r := Next(ENV, s, a);
    assert DueAt(CFG, s.sync, FIRST) <= 112000.0;
    DriverTickReleases(ENV, s, 112000.0);
  }

  lemma ShortDetected()
    ensures OnIngestEvent(SHORT_SAMPLED, Tick(25.0), 120000.0) == SHORT_PAIRED
    ensures !OldEpochTick(SHORT_PAIRED, 25.0, 120000.0)
    ensures OnIngestEvent(SHORT_PAIRED, Tick(15.0), 126000.0) == SHORT_BOUND
    ensures !OldEpochTick(SHORT_BOUND, 15.0, 126000.0)
  {
  }

  /** A post of the first level, 95 s late and before the second level's first, then that one, 11 s late. */
  lemma LatePosts(s: Server) returns (r: Server)
    requires Reachable(ENV, SHORT, s) && At(s, SHORT_SAMPLED, [], 1)
    ensures Reachable(ENV, SHORT, r) && At(r, SHORT_BOUND, [NEW15, OLD25], 3)
  {
    ShortLevels();
    ShortDetected();
    var t := Next(ENV, s, Deliver(Tick(25.0), 120000.0));
    assert At(t, SHORT_PAIRED, [OLD25], 2);
    QueuesAhead(t);
    hide Reachable, Next, SHORT_SAMPLED, SHORT_PAIRED, SHORT_BOUND, SHORT, OLD25, NEW15;
    Posted(SHORT, s, Tick(25.0), 120000.0, 100000.0);
    Posted(SHORT, t, Tick(15.0), 126000.0, 200000.0);
    r := Next(ENV, t, Deliver(Tick(15.0), 126000.0));
  }

  lemma QueuesAhead(t: Server)
    requires At(t, SHORT_PAIRED, [OLD25], 2)
    ensures At(Next(ENV, t, Deliver(Tick(15.0), 126000.0)), SHORT_BOUND, [NEW15, OLD25], 3)
  {
    ShortDetected();
    hide OnIngestEvent, OldEpochTick, SHORT_PAIRED, SHORT_BOUND;
    assert [OLD25][..0] == [];
    assert InsertByTick([OLD25], NEW15) == [NEW15, OLD25];
  }

  /** The event of the new level, though posted after it, fires ahead of the old one. */
  lemma LatePostReordersLevels() returns (s: Server, i: nat, j: nat)
    ensures Reachable(ENV, SHORT, s) && i < j < |s.buf.fired|
    ensures Overtakes(SHORT, true, s.buf.fired[i].item, s.buf.fired[j].item)
  {
    hide Reachable, At, SHORT_SEEN, SHORT_SAMPLED;
    s := ShortPost();
    s := ShortReply(s);
    s := ShortFires(s);
    s := LatePosts(s);
    BothFire(s);
    i, j := |s.buf.fired|, |s.buf.fired| + 1;
    ShortLevels();
    ReachableStep(ENV, SHORT, s, DriverTick(190000.0));
    s := Next(ENV, s, DriverTick(190000.0));
    assert IndexOf(SHORT, NEW15) == 1 && IndexOf(SHORT, OLD25) == 0;
  }

  lemma BothFire(s: Server)
    requires At(s, SHORT_BOUND, [NEW15, OLD25], 3)
    ensures Next(ENV, s, DriverTick(190000.0)).buf.fired
         == s.buf.fired + [Fired(NEW15, 190000.0, None), Fired(OLD25, 190000.0, None)]
  {
    var q := s.buf.queue;
    assert Due(CFG, s.sync, NEW15, 190000.0) && Due(CFG, s.sync, OLD25, 190000.0);
    assert q[1..] == [OLD25] && q[1..][1..] == [];
    assert ReadyCount(CFG, s.sync, [OLD25], 190000.0) == 1;
    assert ReadyCount(CFG, s.sync, q, 190000.0) == 2;
    hide ReadyCount, Due;
    assert q[..2] == q;
    assert FireQueued(q, 190000.0) == [Fired(NEW15, 190000.0, None), Fired(OLD25, 190000.0, None)];
    assert ReleaseDrain(s.buf, 190000.0).fired == s.buf.fired + [];
  }
}
