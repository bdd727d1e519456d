/** Early release across changes of level: when exactly an event is given an instant before viewers reach it. Any
    number of levels of one proxy, posts of each in any order the network gives them, samples that read whichever
    level was loaded. */
module HltvEpochs {
  import opened Wrappers
  import opened HltvSync
  import opened HltvDelayBuffer
  import opened HltvPipeline
  import opened HltvLaws
  import opened HltvBoundary
  import opened HltvAccuracy

  /** The levels in the order they are loaded, all of the map `mapName`, and the level each post is of. */
  datatype World = World(level: nat -> Level, index: nat -> nat, mapName: string)

  function LevelOf(w: World, n: nat): Level { w.level(w.index(n)) }

  /** The level an event is of. */
  function IndexOf(w: World, it: BufferedEvent): nat { w.index(it.arrival) }

  /** When viewers reach the start of a level. */
  function ShownFrom(l: Level): real { l.loadedAt + l.delaySeconds * 1000.0 }

  /** One level is loaded and broadcast no sooner than another, under the same read lag. */
  ghost predicate NoSooner(earlier: Level, later: Level) {
    && earlier.loadedAt <= later.loadedAt && ShownFrom(earlier) <= ShownFrom(later)
    && earlier.readLagSeconds == later.readLagSeconds
  }

  /** The levels are loaded and broadcast in turn. */
  ghost predicate Sensible(cfg: Config, w: World) {
    && (forall j: nat :: Covers(cfg, w.level(j)))
    && (forall i: nat, j: nat :: i <= j ==> NoSooner(w.level(i), w.level(j)))
  }

  /** A later level is broadcast after an earlier one by more than a clock's error and the late bias of a board. */
  ghost predicate Apart(cfg: Config, earlier: Level, later: Level) {
    ShownFrom(later)
    >= ShownFrom(earlier) + (1.0 + later.readLagSeconds + cfg.boardReleaseLagSeconds) * 1000.0
  }

  ghost predicate WellApart(cfg: Config, w: World) {
    forall i: nat, j: nat :: i < j ==> Apart(cfg, w.level(i), w.level(j))
  }

  /** A basis describes level `j` or a later one. */
  ghost predicate AccurateFrom(w: World, j: nat, b: ClockBasis) {
    exists i: nat :: j <= i && Accurate(w.level(i), b)
  }

  /** A basis describes one of the levels. */
  ghost predicate Describes(w: World, b: ClockBasis) { AccurateFrom(w, 0, b) }

  /** A basis is there and describes neither level `j` nor a later one. */
  ghost predicate Behind(w: World, j: nat, basis: Option<ClockBasis>) {
    basis.Some? && !AccurateFrom(w, j, basis.value)
  }

  function OnlineBasis(s: ServerSync): Option<ClockBasis> {
    if s.clock.Some? && s.clock.value.online then Some(s.clock.value.basis) else None
  }

  /** The basis is behind the event's level; an event without a tick has no instant to be early for. */
  ghost predicate TooSoon(w: World, it: BufferedEvent, basis: Option<ClockBasis>) {
    it.event.tick.Some? && Behind(w, IndexOf(w, it), basis)
  }

  /** What the world does: posts come no earlier than they happened, replies describe one of the levels and were
      read within the lag, and the calibration stays at zero. */
  ghost predicate Worldly(w: World, s: Server, a: Action) {
    match a
    case Deliver(e, now) => e.tick.Some? ==> e.tick.value <= GameTime(LevelOf(w, |s.accepted|), now)
    case SampleOk(status) =>
      s.sync.inflight.Some? ==> exists u, j: nat :: ReadIn(w.level(j), s, status, u)
    case Calibrate(offsetMs) => offsetMs == 0.0
    case _ => true
  }

  predicate ReadIn(l: Level, s: Server, status: RconStatus, u: real) {
    && s.sync.inflight.Some? && ReadAt(l, status, u)
    && s.sync.inflight.value.sampledAt <= u <= s.sync.inflight.value.sampledAt + l.readLagSeconds * 1000.0
  }

  ghost predicate Described(w: World, s: ServerSync) {
    && (s.clock.Some? ==> s.clock.value.basis.calibrationOffsetMs == 0.0)
    && (OnlineBasis(s).Some? ==> Describes(w, OnlineBasis(s).value))
    && (s.lastEventClock.Some? ==> Describes(w, s.lastEventClock.value))
    && (s.resetBasis.Some? ==> Describes(w, s.resetBasis.value))
  }

  ghost predicate ItemOk(w: World, it: BufferedEvent) { Happened(LevelOf(w, it.arrival), it) }

  ghost predicate Lifelike(w: World, s: Server) {
    Described(w, s.sync) && forall it :: it in s.buf.queue ==> ItemOk(w, it)
  }

  lemma InTurn(cfg: Config, w: World, i: nat, j: nat)
    requires Sensible(cfg, w) && i <= j
    ensures NoSooner(w.level(i), w.level(j)) && Covers(cfg, w.level(i)) && Covers(cfg, w.level(j))
  {
  }

  /** A basis of a later level is of an earlier one or a later. */
  lemma AccurateFromLess(w: World, i: nat, j: nat, b: ClockBasis)
    requires i <= j && AccurateFrom(w, j, b)
    ensures AccurateFrom(w, i, b)
  {
    var k: nat :| j <= k && Accurate(w.level(k), b);
  }

  /** What is behind a level is behind every later one. */
  lemma BehindMore(w: World, i: nat, j: nat, basis: Option<ClockBasis>)
    requires i <= j && Behind(w, i, basis)
    ensures Behind(w, j, basis)
  {
    if AccurateFrom(w, j, basis.value) {
      AccurateFromLess(w, i, j, basis.value);
    }
  }

  /** Nothing that describes a level is behind the first. */
  lemma NeverBehindFirst(w: World, basis: Option<ClockBasis>)
    requires basis.Some? ==> Describes(w, basis.value)
    ensures !Behind(w, 0, basis)
  {
  }

  // ---- When an instant is early ----

  lemma NotEarlyUnderEarlier(cfg: Config, w: World, i: nat, j: nat, it: BufferedEvent, at: real)
    requires Sensible(cfg, w) && i <= j && NotEarly(w.level(j), it, at)
    ensures NotEarly(w.level(i), it, at)
  {
    InTurn(cfg, w, i, j);
    hide Sensible;
  }

  lemma StampIsNotEarly(cfg: Config, l: Level, it: BufferedEvent, b: ClockBasis)
    requires Covers(cfg, l) && Accurate(l, b)
    ensures NotEarly(l, it, ProjectReleaseAt(cfg, it, Some(b)))
  {
  }

  lemma StampIsEarly(cfg: Config, earlier: Level, later: Level, it: BufferedEvent, b: ClockBasis)
    requires Covers(cfg, later) && NoSooner(earlier, later) && Apart(cfg, earlier, later) && Accurate(earlier, b)
    requires it.event.tick.Some?
    ensures !NotEarly(later, it, ProjectReleaseAt(cfg, it, Some(b)))
  {
  }

  /** A stamp off a basis that describes some level is right for an event of that level or an earlier one, and
      early for an event of a later one. */
  lemma StampedEarlyExactlyWhen(cfg: Config, w: World, it: BufferedEvent, basis: Option<ClockBasis>)
    requires Sensible(cfg, w) && ItemOk(w, it) && (basis.Some? ==> Describes(w, basis.value))
    ensures
      var at := ProjectReleaseAt(cfg, it, basis);
      && (!TooSoon(w, it, basis) ==> NotEarly(LevelOf(w, it.arrival), it, at))
      && (WellApart(cfg, w) ==> (NotEarly(LevelOf(w, it.arrival), it, at) <==> !TooSoon(w, it, basis)))
  {
    var j := IndexOf(w, it);
    if basis.None? {
      InTurn(cfg, w, j, j);
      ProjectionNotEarly(cfg, w.level(j), it, basis);
    } else if AccurateFrom(w, j, basis.value) {
      var i: nat :| j <= i && Accurate(w.level(i), basis.value);
      InTurn(cfg, w, j, i);
      StampIsNotEarly(cfg, w.level(i), it, basis.value);
      NotEarlyUnderEarlier(cfg, w, j, i, it, ProjectReleaseAt(cfg, it, basis));
    } else if it.event.tick.Some? && WellApart(cfg, w) {
      var i: nat :| Accurate(w.level(i), basis.value);
      InTurn(cfg, w, i, j);
      StampIsEarly(cfg, w.level(i), w.level(j), it, basis.value);
    }
  }

  lemma DueIsNotEarly(cfg: Config, l: Level, sync: ServerSync, it: BufferedEvent)
    requires OnlineBasis(sync).Some? && Accurate(l, OnlineBasis(sync).value)
    ensures NotEarly(l, it, DueAt(cfg, sync, it))
  {
  }

  lemma DueIsEarly(cfg: Config, earlier: Level, later: Level, sync: ServerSync, it: BufferedEvent)
    requires Covers(cfg, later) && NoSooner(earlier, later) && Apart(cfg, earlier, later) && it.event.tick.Some?
    requires OnlineBasis(sync).Some? && Accurate(earlier, OnlineBasis(sync).value)
    ensures !NotEarly(later, it, DueAt(cfg, sync, it))
  {
  }

  lemma FallbackIsNotEarly(cfg: Config, l: Level, sync: ServerSync, it: BufferedEvent)
    requires Covers(cfg, l) && Happened(l, it) && OnlineBasis(sync).None?
    ensures NotEarly(l, it, DueAt(cfg, sync, it))
  {
  }

  /** A queued event falls due in time exactly when the clock is offline or describes its level or a later one. */
  lemma DueEarlyExactlyWhen(cfg: Config, w: World, sync: ServerSync, it: BufferedEvent)
    requires Sensible(cfg, w) && ItemOk(w, it) && Described(w, sync)
    ensures
      var at := DueAt(cfg, sync, it);
      && (!TooSoon(w, it, OnlineBasis(sync)) ==> NotEarly(LevelOf(w, it.arrival), it, at))
      && (WellApart(cfg, w) ==> (NotEarly(LevelOf(w, it.arrival), it, at) <==> !TooSoon(w, it, OnlineBasis(sync))))
  {
    var j, basis := IndexOf(w, it), OnlineBasis(sync);
    if basis.None? {
      InTurn(cfg, w, j, j);
      FallbackIsNotEarly(cfg, w.level(j), sync, it);
    } else if AccurateFrom(w, j, basis.value) {
      var i: nat :| j <= i && Accurate(w.level(i), basis.value);
      DueIsNotEarly(cfg, w.level(i), sync, it);
      NotEarlyUnderEarlier(cfg, w, j, i, it, DueAt(cfg, sync, it));
    } else if it.event.tick.Some? && WellApart(cfg, w) {
      var i: nat :| Accurate(w.level(i), basis.value);
      InTurn(cfg, w, i, j);
      DueIsEarly(cfg, w.level(i), w.level(j), sync, it);
    }
  }

  // ---- What moves events to the drain too soon ----

  /** The step stamps some event with an instant before viewers reach it. */
  ghost predicate StampsEarly(w: World, s: Server, r: Server) {
    exists i :: |s.drained| <= i < |r.drained| && !DrainOk(w, r.drained[i])
  }

  /** A delivery drains an event off a basis behind its level: as a straggler, or with a queue it evicts. */
  ghost predicate DeliveryCause(env: Env, w: World, s: Server, e: Event, now: real) {
    var seen, it := OnIngestEvent(s.sync, e, now), Numbered(env, s, e, now);
    if OldEpochTick(seen, NumericTick(it), now) then TooSoon(w, it, TailBasis(seen))
    else TailFarAbove(s.buf.queue, NumericTick(it)) && exists x :: x in s.buf.queue && TooSoon(w, x, TailBasis(seen))
  }

  /** An emission rescues an event off a basis behind its level. */
  ghost predicate EmissionCause(w: World, s: Server) {
    && s.sync.clock.Some? && s.sync.clock.value.online && s.sync.clock.value.lastError == ""
    && exists x :: x in s.buf.queue && Stranded(x, s.sync.clock.value.basis.activeTime)
                   && TooSoon(w, x, TailBasis(s.sync))
  }

  ghost predicate DrainOk(w: World, x: DrainItem) { NotEarly(LevelOf(w, x.item.arrival), x.item, x.releaseAt) }

  ghost predicate FireOk(w: World, f: Fired) { NotEarly(LevelOf(w, f.item.arrival), f.item, f.at) }

  lemma IngestKeepsDescribed(w: World, s: ServerSync, e: Event, now: real)
    requires Described(w, s)
    ensures Described(w, OnIngestEvent(s, e, now))
  {
    hide Accurate, OldEpochTick;
  }

  lemma TailIsDescribed(w: World, s: ServerSync)
    requires Described(w, s)
    ensures TailBasis(s).Some? ==> Describes(w, TailBasis(s).value)
  {
    hide Accurate;
  }

  /** Moving `moved` off the service's tail basis stamps an event early exactly when the basis is behind one of them. */
  lemma MoveStampsEarlyExactlyWhen(env: Env, w: World, s: Server, moved: seq<BufferedEvent>, r: Server)
    requires Sensible(env.cfg, w) && WellApart(env.cfg, w) && Described(w, s.sync)
    requires forall it :: it in moved ==> ItemOk(w, it)
    requires r.drained == Record(env, s, moved)
    ensures StampsEarly(w, s, r) <==> exists x :: x in moved && TooSoon(w, x, TailBasis(s.sync))
  {
    hide Describes, Described, ProjectReleaseAt, NotEarly, Sensible, WellApart, ItemOk, TooSoon, TailBasis;
    TailIsDescribed(w, s.sync);
    var n := |s.drained|;
    forall i | n <= i < |r.drained|
      ensures r.drained[i].item == moved[i - n] && moved[i - n] in moved
      ensures DrainOk(w, r.drained[i]) <==> !TooSoon(w, moved[i - n], TailBasis(s.sync))
    {
      StampedEarlyExactlyWhen(env.cfg, w, moved[i - n], TailBasis(s.sync));
    }
    if x :| x in moved && TooSoon(w, x, TailBasis(s.sync)) {
      var j :| 0 <= j < |moved| && moved[j] == x;
      assert r.drained[n + j].item == x;
    }
  }

  /** Per delivery: an event is stamped early if and only if the guard holds. */
  lemma DeliveryStampsEarlyExactlyWhen(env: Env, w: World, s: Server, e: Event, now: real)
    requires Sensible(env.cfg, w) && WellApart(env.cfg, w) && Lifelike(w, s) && Worldly(w, s, Deliver(e, now))
    ensures StampsEarly(w, s, DeliverTo(env, s, e, now)) <==> DeliveryCause(env, w, s, e, now)
  {
    var it := Numbered(env, s, e, now);
    var seen := s.(sync := OnIngestEvent(s.sync, e, now));
    IngestKeepsDescribed(w, s.sync, e, now);
    assert ItemOk(w, it);
    var moved := Moved(seen.sync, s.buf, it, now);
    hide OnIngestEvent, OldEpochTick, Described, ItemOk, Enqueue;
    assert moved == [it] ==> it in moved;
    MoveStampsEarlyExactlyWhen(env, w, seen, moved, DeliverTo(env, s, e, now));
    hide TooSoon, TailBasis, DrainOk;
    SameDrained(w, s, seen, DeliverTo(env, s, e, now));
  }

  lemma SameDrained(w: World, s: Server, t: Server, r: Server)
    requires s.drained == t.drained
    ensures StampsEarly(w, s, r) <==> StampsEarly(w, t, r)
  {
  }

  /** Per emission: likewise. */
  lemma EmissionStampsEarlyExactlyWhen(env: Env, w: World, s: Server)
    requires Sensible(env.cfg, w) && WellApart(env.cfg, w) && Lifelike(w, s)
    ensures StampsEarly(w, s, EmitClock(env, s)) <==> EmissionCause(w, s)
  {
    hide Described, ItemOk, DrainOk, TooSoon, Stamp, ReleaseStranded, TailBasis;
    if s.sync.clock.Some? {
      var moved := Sift(s.buf.queue, s.sync.clock.value.basis.activeTime, true);
      if EmitClock(env, s) != s {
        MoveStampsEarlyExactlyWhen(env, w, s, moved, EmitClock(env, s));
      }
    }
  }

  // ---- Without a cause nothing is early ----

  /** What can make a step give an event an early instant: a delivery or an emission as above, or a driver tick
      that finds one due by an online clock that is behind its level. */
  ghost predicate Cause(env: Env, w: World, s: Server, a: Action) {
    match a
    case Deliver(e, now) => DeliveryCause(env, w, s, e, now)
    case StartSample(_, _) => false
    case SampleOk(status) =>
      s.sync.inflight.Some? && EmissionCause(w, s.(sync := HltvSync.SampleOk(s.sync, status)))
    case SampleFail(message) =>
      s.sync.inflight.Some? && EmissionCause(w, s.(sync := HltvSync.SampleFail(env.cfg, s.sync, message)))
    case Calibrate(offsetMs) => EmissionCause(w, s.(sync := SetCalibration(s.sync, offsetMs)))
    case DriverTick(now) =>
      exists x :: x in s.buf.queue && Due(env.cfg, s.sync, x, now) && TooSoon(w, x, OnlineBasis(s.sync))
  }

  ghost predicate CleanInv(w: World, s: Server) {
    && Lifelike(w, s)
    && (forall x :: x in s.buf.draining ==> DrainOk(w, x))
    && (forall f :: f in s.buf.fired ==> FireOk(w, f))
  }

  lemma DrainTailOk(cfg: Config, w: World, s: Server, items: seq<BufferedEvent>)
    requires Sensible(cfg, w) && Described(w, s.sync)
    requires forall it :: it in items ==> ItemOk(w, it)
    requires forall it :: it in items ==> !TooSoon(w, it, TailBasis(s.sync))
    requires forall x :: x in s.buf.draining ==> DrainOk(w, x)
    ensures forall x :: x in DrainTail(cfg, s.sync, s.buf, items).draining ==> DrainOk(w, x)
  {
    hide DrainOk, ItemOk, ProjectReleaseAt, Describes, Described, Sensible, TooSoon, TailBasis;
    var stamped := Stamp(cfg, items, TailBasis(s.sync));
    TailIsDescribed(w, s.sync);
    forall x | x in stamped ensures DrainOk(w, x) {
      var i :| 0 <= i < |stamped| && stamped[i] == x;
      assert items[i] in items;
      StampIsOk(cfg, w, x.item, TailBasis(s.sync));
    }
    forall x | x in DrainTail(cfg, s.sync, s.buf, items).draining ensures DrainOk(w, x) {
      if items != [] {
        assert x in multiset(SortByRelease(s.buf.draining + stamped));
        assert x in s.buf.draining || x in stamped;
      }
    }
  }

  lemma StampIsOk(cfg: Config, w: World, it: BufferedEvent, basis: Option<ClockBasis>)
    requires Sensible(cfg, w) && ItemOk(w, it) && (basis.Some? ==> Describes(w, basis.value))
    requires !TooSoon(w, it, basis)
    ensures DrainOk(w, DrainItem(it, ProjectReleaseAt(cfg, it, basis)))
  {
    StampedEarlyExactlyWhen(cfg, w, it, basis);
  }

  lemma DueIsOk(cfg: Config, w: World, sync: ServerSync, it: BufferedEvent, now: real)
    requires Sensible(cfg, w) && ItemOk(w, it) && Described(w, sync) && Due(cfg, sync, it, now)
    requires !TooSoon(w, it, OnlineBasis(sync))
    ensures NotEarly(LevelOf(w, it.arrival), it, now)
  {
    DueFromThenOn(cfg, sync, it, now);
    DueEarlyExactlyWhen(cfg, w, sync, it);
  }

  lemma DeliverIsClean(env: Env, w: World, s: Server, e: Event, now: real)
    requires Sensible(env.cfg, w) && CleanInv(w, s) && Worldly(w, s, Deliver(e, now))
    requires !DeliveryCause(env, w, s, e, now)
    ensures CleanInv(w, DeliverTo(env, s, e, now))
  {
    var it := Numbered(env, s, e, now);
    var seen := s.(sync := OnIngestEvent(s.sync, e, now));
    IngestKeepsDescribed(w, s.sync, e, now);
    assert ItemOk(w, it);
    hide OnIngestEvent, OldEpochTick, Described, ItemOk, DrainOk, FireOk, TooSoon, TailBasis, DrainTail;
    InsertByTickMembers(s.buf.queue, it);
    DrainTailFrame(env.cfg, seen.sync, s.buf, [it]);
    DrainTailFrame(env.cfg, seen.sync, s.buf, s.buf.queue);
    if OldEpochTick(seen.sync, NumericTick(it), now) {
      DrainTailOk(env.cfg, w, seen, [it]);
    } else if TailFarAbove(s.buf.queue, NumericTick(it)) {
      DrainTailOk(env.cfg, w, seen, s.buf.queue);
    }
  }

  lemma EmitIsClean(env: Env, w: World, s: Server)
    requires Sensible(env.cfg, w) && CleanInv(w, s) && !EmissionCause(w, s)
    ensures CleanInv(w, EmitClock(env, s))
  {
    hide Described, ItemOk, DrainOk, FireOk, TooSoon, TailBasis, DrainTail;
    if s.sync.clock.Some? && s.sync.clock.value.online && s.sync.clock.value.lastError == "" {
      var activeTime := s.sync.clock.value.basis.activeTime;
      var stranded := Sift(s.buf.queue, activeTime, true);
      var kept := s.(buf := s.buf.(queue := Sift(s.buf.queue, activeTime, false)));
      DrainTailOk(env.cfg, w, kept, stranded);
      DrainTailFrame(env.cfg, s.sync, kept.buf, stranded);
    }
  }

  lemma ReadingIsAccurate(l: Level, s: Server, status: RconStatus, u: real)
    requires ReadIn(l, s, status, u)
    requires s.sync.clock.Some? ==> s.sync.clock.value.basis.calibrationOffsetMs == 0.0
    ensures Accurate(l, HltvSync.SampleOk(s.sync, status).clock.value.basis)
  {
    var t := s.sync.inflight.value.sampledAt;
    assert GameTime(l, t) <= GameTime(l, u) <= GameTime(l, t) + l.readLagSeconds;
  }

  lemma ReplyKeepsDescribed(w: World, s: Server, status: RconStatus)
    requires Described(w, s.sync) && Worldly(w, s, SampleOk(status)) && s.sync.inflight.Some?
    ensures Described(w, HltvSync.SampleOk(s.sync, status))
  {
    hide Accurate, ReadIn;
    var u, j: nat :| ReadIn(w.level(j), s, status, u);
    ReadingIsAccurate(w.level(j), s, status, u);
  }

  lemma FailKeepsDescribed(cfg: Config, w: World, s: ServerSync, message: string)
    requires Described(w, s)
    ensures Described(w, HltvSync.SampleFail(cfg, s, message)) && Described(w, SetCalibration(s, 0.0))
  {
    hide Accurate;
  }

  lemma ReleaseDrainIsClean(w: World, s: Server, now: real)
    requires CleanInv(w, s)
    ensures CleanInv(w, s.(buf := ReleaseDrain(s.buf, now)))
  {
    hide ItemOk, Described;
    var n := DueCount(s.buf.draining, now);
    var fires := FireDrained(s.buf.draining[..n], now);
    forall f | f in fires ensures FireOk(w, f) {
      var i :| 0 <= i < n && fires[i] == f;
      assert s.buf.draining[i] in s.buf.draining;
      assert DrainOk(w, s.buf.draining[i]);
    }
    hide DrainOk, FireOk;
  }

  lemma ReleaseQueueIsClean(cfg: Config, w: World, s: Server, now: real)
    requires Sensible(cfg, w) && CleanInv(w, s)
    requires forall x :: x in s.buf.queue && TooSoon(w, x, OnlineBasis(s.sync)) ==> !Due(cfg, s.sync, x, now)
    ensures CleanInv(w, s.(buf := ReleaseQueue(cfg, s.sync, s.buf, now)))
  {
    hide ItemOk, Described, DrainOk, Due, NotEarly, Sensible, TooSoon;
    var n := ReadyCount(cfg, s.sync, s.buf.queue, now);
    var fires := FireQueued(s.buf.queue[..n], now);
    forall f | f in fires ensures FireOk(w, f) {
      var i :| 0 <= i < n && fires[i] == f;
      assert s.buf.queue[i] in s.buf.queue;
      DueIsOk(cfg, w, s.sync, s.buf.queue[i], now);
    }
    hide FireOk;
  }

  lemma StepIsClean(env: Env, w: World, s: Server, a: Action)
    requires Sensible(env.cfg, w) && CleanInv(w, s) && Worldly(w, s, a) && !Cause(env, w, s, a)
    ensures CleanInv(w, Next(env, s, a))
  {
    hide DeliverTo, EmitClock, ReleaseDrain, ReleaseQueue, ItemOk, DrainOk, FireOk, Described, ReadIn, DeliveryCause,
         EmissionCause, Due, TooSoon;
    match a
    case Deliver(e, now) => DeliverIsClean(env, w, s, e, now);
    case StartSample(_, _) => StartIsClean(w, s, HltvSync.StartSample(s.sync, a.reason, a.now));
    case SampleOk(status) =>
      if s.sync.inflight.Some? {
        ReplyKeepsDescribed(w, s, status);
        EmitIsClean(env, w, s.(sync := HltvSync.SampleOk(s.sync, status)));
      }
    case SampleFail(message) =>
      if s.sync.inflight.Some? {
        FailKeepsDescribed(env.cfg, w, s.sync, message);
        EmitIsClean(env, w, s.(sync := HltvSync.SampleFail(env.cfg, s.sync, message)));
      }
    case Calibrate(offsetMs) =>
      FailKeepsDescribed(env.cfg, w, s.sync, "");
      EmitIsClean(env, w, s.(sync := SetCalibration(s.sync, offsetMs)));
    case DriverTick(now) =>
      ReleaseDrainIsClean(w, s, now);
      var mid := s.(buf := ReleaseDrain(s.buf, now));
      assert mid.buf.queue == s.buf.queue by { DrainLeavesQueue(s.buf, now); }
      ReleaseQueueIsClean(env.cfg, w, mid, now);
  }

  lemma DrainLeavesQueue(b: ServerBuffer, now: real)
    ensures ReleaseDrain(b, now).queue == b.queue
  {
  }

  lemma StartIsClean(w: World, s: Server, sync: ServerSync)
    requires CleanInv(w, s) && sync == s.sync.(inflight := sync.inflight)
    ensures CleanInv(w, s.(sync := sync))
  {
    hide Describes, ItemOk, DrainOk, FireOk;
  }

  /** Over every run in which no step has a cause, no event of any level fires before viewers reach it, less the
      read lag, and none is waiting to. */
  lemma {:induction false} NeverEarlyWithoutACause(
      env: Env, w: World, states: seq<Server>, acts: seq<Action>, k: nat)
    requires RunsFromStart(env, states, acts) && k < |states| && Sensible(env.cfg, w)
    requires forall i :: 0 <= i < k ==> Worldly(w, states[i], acts[i]) && !Cause(env, w, states[i], acts[i])
    ensures CleanInv(w, states[k])
  {
    hide Next, Worldly, Cause, Sensible, DrainOk, FireOk;
    if k > 0 {
      NeverEarlyWithoutACause(env, w, states, acts, k - 1);
      StepIsClean(env, w, states[k - 1], acts[k - 1]);
    }
  }

  // ---- The same over runs, without assuming there is no cause ----

  lemma DeliverIsLifelike(env: Env, w: World, s: Server, e: Event, now: real)
    requires Lifelike(w, s) && Worldly(w, s, Deliver(e, now))
    ensures Lifelike(w, DeliverTo(env, s, e, now))
  {
    var it, seen := Numbered(env, s, e, now), OnIngestEvent(s.sync, e, now);
    IngestKeepsDescribed(w, s.sync, e, now);
    assert ItemOk(w, it);
    hide OnIngestEvent, OldEpochTick, Described, ItemOk, DrainTail;
    InsertByTickMembers(s.buf.queue, it);
    DrainTailFrame(env.cfg, seen, s.buf, [it]);
    DrainTailFrame(env.cfg, seen, s.buf, s.buf.queue);
  }

  lemma EmitIsLifelike(env: Env, w: World, s: Server)
    requires Lifelike(w, s)
    ensures Lifelike(w, EmitClock(env, s))
  {
    hide Described, ItemOk, SortByRelease;
  }

  lemma StepIsLifelike(env: Env, w: World, s: Server, a: Action)
    requires Lifelike(w, s) && Worldly(w, s, a)
    ensures Lifelike(w, Next(env, s, a))
  {
    hide DeliverTo, EmitClock, ItemOk, Describes, ReadIn;
    match a
    case Deliver(e, now) => DeliverIsLifelike(env, w, s, e, now);
    case StartSample(_, _) =>
    case SampleOk(status) =>
      if s.sync.inflight.Some? {
        ReplyKeepsDescribed(w, s, status);
        EmitIsLifelike(env, w, s.(sync := HltvSync.SampleOk(s.sync, status)));
      }
    case SampleFail(message) =>
      if s.sync.inflight.Some? {
        FailKeepsDescribed(env.cfg, w, s.sync, message);
        EmitIsLifelike(env, w, s.(sync := HltvSync.SampleFail(env.cfg, s.sync, message)));
      }
    case Calibrate(offsetMs) =>
      FailKeepsDescribed(env.cfg, w, s.sync, "");
      EmitIsLifelike(env, w, s.(sync := SetCalibration(s.sync, offsetMs)));
    case DriverTick(now) =>
      assert forall x :: x in Next(env, s, a).buf.queue ==> x in s.buf.queue;
  }

  lemma {:induction false} RunIsLifelike(env: Env, w: World, states: seq<Server>, acts: seq<Action>, k: nat)
    requires RunsFromStart(env, states, acts) && k < |states|
    requires forall i :: 0 <= i < k ==> Worldly(w, states[i], acts[i])
    ensures Lifelike(w, states[k])
  {
    hide Next, Worldly;
    if k > 0 {
      RunIsLifelike(env, w, states, acts, k - 1);
      StepIsLifelike(env, w, states[k - 1], acts[k - 1]);
    }
  }

  lemma StepStampsEarlyExactlyWhen(env: Env, w: World, s: Server, a: Action)
    requires Sensible(env.cfg, w) && WellApart(env.cfg, w) && Lifelike(w, s) && Worldly(w, s, a) && !a.DriverTick?
    ensures StampsEarly(w, s, Next(env, s, a)) <==> Cause(env, w, s, a)
  {
    hide DeliverTo, EmitClock, Described, ItemOk, ReadIn, StampsEarly, EmissionCause, DeliveryCause;
    match a
    case Deliver(e, now) => DeliveryStampsEarlyExactlyWhen(env, w, s, e, now);
    case StartSample(_, _) => NothingStamped(w, s, Next(env, s, a));
    case SampleOk(status) =>
      if s.sync.inflight.Some? {
        ReplyKeepsDescribed(w, s, status);
        SampledStampsEarlyExactlyWhen(env, w, s, HltvSync.SampleOk(s.sync, status));
      } else {
        NothingStamped(w, s, s);
      }
    case SampleFail(message) =>
      if s.sync.inflight.Some? {
        FailKeepsDescribed(env.cfg, w, s.sync, message);
        SampledStampsEarlyExactlyWhen(env, w, s, HltvSync.SampleFail(env.cfg, s.sync, message));
      } else {
        NothingStamped(w, s, s);
      }
    case Calibrate(offsetMs) =>
      FailKeepsDescribed(env.cfg, w, s.sync, "");
      SampledStampsEarlyExactlyWhen(env, w, s, SetCalibration(s.sync, offsetMs));
  }

  lemma SampledStampsEarlyExactlyWhen(env: Env, w: World, s: Server, sync: ServerSync)
    requires Sensible(env.cfg, w) && WellApart(env.cfg, w) && Lifelike(w, s) && Described(w, sync)
    ensures StampsEarly(w, s, EmitClock(env, s.(sync := sync))) <==> EmissionCause(w, s.(sync := sync))
  {
    hide Described, ItemOk, EmissionCause, EmitClock, StampsEarly;
    EmissionStampsEarlyExactlyWhen(env, w, s.(sync := sync));
    SameDrained(w, s, s.(sync := sync), EmitClock(env, s.(sync := sync)));
  }

  lemma NothingStamped(w: World, s: Server, r: Server)
    requires s.drained == r.drained
    ensures !StampsEarly(w, s, r)
  {
  }

  /** At every step of every run of such a world, an event is stamped early if and only if the step has a cause; and
      at every driver tick a queued event falls due early if and only if the clock online is behind its level. */
  lemma EarlyExactlyWhen(env: Env, w: World, states: seq<Server>, acts: seq<Action>, k: nat)
    requires RunsFromStart(env, states, acts) && k < |acts| && Sensible(env.cfg, w) && WellApart(env.cfg, w)
    requires forall i :: 0 <= i <= k ==> Worldly(w, states[i], acts[i])
    ensures !acts[k].DriverTick? ==>
              (StampsEarly(w, states[k], states[k + 1]) <==> Cause(env, w, states[k], acts[k]))
    ensures forall it :: it in states[k].buf.queue ==>
              (NotEarly(LevelOf(w, it.arrival), it, DueAt(env.cfg, states[k].sync, it)) <==>
               !TooSoon(w, it, OnlineBasis(states[k].sync)))
  {
    hide Next, Worldly, Sensible, WellApart, StampsEarly, Cause, Described, NotEarly, TooSoon, ItemOk, DueAt;
    RunIsLifelike(env, w, states, acts, k);
    assert states[k + 1] == Next(env, states[k], acts[k]);
    if !acts[k].DriverTick? {
      StepStampsEarlyExactlyWhen(env, w, states[k], acts[k]);
    }
    forall it | it in states[k].buf.queue
      ensures NotEarly(LevelOf(w, it.arrival), it, DueAt(env.cfg, states[k].sync, it)) <==>
              !TooSoon(w, it, OnlineBasis(states[k].sync))
    {
      DueEarlyExactlyWhen(env.cfg, w, states[k].sync, it);
    }
  }

  // ---- Three of the causes ----

  lemma StampIn(env: Env, s: Server, items: seq<BufferedEvent>, it: BufferedEvent)
    requires it in items
    ensures DrainItem(it, ProjectReleaseAt(env.cfg, it, TailBasis(s.sync)))
            in DrainTail(env.cfg, s.sync, s.buf, items).draining
  {
    hide ProjectReleaseAt, TailBasis;
    DrainTailHolds(env.cfg, s.sync, s.buf, items);
    var stamped := Stamp(env.cfg, items, TailBasis(s.sync));
    var i :| 0 <= i < |items| && items[i] == it;
    assert stamped[i] in multiset(DrainTail(env.cfg, s.sync, s.buf, items).draining);
  }

  /** A post without a tick counts as tick 0: it sends a queued event to the drain on the clock promoted at the last
      boundary, which is behind the event's level, early. */
  lemma TicklessPostReleasesEarly(env: Env, w: World, s: Server, e: Event, now: real, it: BufferedEvent)
    requires Sensible(env.cfg, w) && WellApart(env.cfg, w) && Lifelike(w, s)
    requires s.sync.lazyInited && !MapChanged(s.sync, e) && e.tick.None?
    requires !OldEpochTick(s.sync, 0.0, now) && TailFarAbove(s.buf.queue, 0.0)
    requires it in s.buf.queue && TooSoon(w, it, TailBasis(s.sync))
    ensures exists x :: x in DeliverTo(env, s, e, now).buf.draining && x.item == it && !DrainOk(w, x)
  {
    hide OldEpochTick, NotEarly, Describes, Sensible, WellApart, ItemOk, TooSoon, TailBasis, ProjectReleaseAt;
    assert OnIngestEvent(s.sync, e, now) == s.sync;
    TailIsDescribed(w, s.sync);
    StampedEarlyExactlyWhen(env.cfg, w, it, TailBasis(s.sync));
    hide OnIngestEvent, Described;
    StampIn(env, s, s.buf.queue, it);
  }

  /** A reply that strands a queued event while the tail's basis is still that of an earlier boundary sends it to
      the drain early. At a first boundary there is no such basis; at any later one this is what a reply of the next
      level does if it comes before that level's first post. */
  lemma RescueReleasesEarly(env: Env, w: World, s: Server, status: RconStatus, it: BufferedEvent)
    requires Sensible(env.cfg, w) && WellApart(env.cfg, w) && Lifelike(w, s) && s.sync.inflight.Some?
    requires it in s.buf.queue && Stranded(it, status.activeTime) && TooSoon(w, it, s.sync.resetBasis)
    ensures exists x :: x in Next(env, s, SampleOk(status)).buf.draining && x.item == it && !DrainOk(w, x)
  {
    hide NotEarly, Sensible, WellApart, ItemOk, ProjectReleaseAt, Accurate;
    StampedEarlyExactlyWhen(env.cfg, w, it, s.sync.resetBasis);
    var t := s.(sync := HltvSync.SampleOk(s.sync, status));
    var kept := t.(buf := s.buf.(queue := Sift(s.buf.queue, status.activeTime, false)));
    assert it in Sift(s.buf.queue, status.activeTime, true);
    StampIn(env, kept, Sift(s.buf.queue, status.activeTime, true), it);
    hide DrainTail, Sift, Stranded, Describes;
  }

  /** A reply that read an earlier level makes a queued event of a later one due early. */
  lemma OldReadingReleasesEarly(env: Env, w: World, s: Server, j: nat, status: RconStatus, u: real, it: BufferedEvent)
    requires Sensible(env.cfg, w) && WellApart(env.cfg, w) && Lifelike(w, s) && ReadIn(w.level(j), s, status, u)
    requires it in s.buf.queue && it.event.tick.Some? && j < IndexOf(w, it)
    ensures !NotEarly(LevelOf(w, it.arrival), it, DueAt(env.cfg, Next(env, s, SampleOk(status)).sync, it))
  {
    var sync := HltvSync.SampleOk(s.sync, status);
    ReadingIsAccurate(w.level(j), s, status, u);
    EmitThins(env, s.(sync := sync));
    InTurn(env.cfg, w, j, IndexOf(w, it));
    DueIsEarly(env.cfg, w.level(j), LevelOf(w, it.arrival), sync, it);
  }
}
