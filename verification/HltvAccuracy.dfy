/** The broadcast clock against the truth: how far a sampled, coasted or snapshotted clock can be from
    the level's own time, and that no event is released before viewers reach it. */
module HltvAccuracy {
  import opened Wrappers
  import opened HltvSync
  import opened HltvDelayBuffer
  import opened HltvPipeline
  import opened HltvLaws
  import opened HltvBoundary

  /** One level as it really is: when it was loaded, the proxy's delay, and how many seconds after
      `sampledAt` a status reply may have been read. */
  datatype Level = Level(loadedAt: real, delaySeconds: real, readLagSeconds: real)

  function GameTime(l: Level, now: real): real { (now - l.loadedAt) / 1000.0 }

  function TrueBroadcast(l: Level, now: real): real { GameTime(l, now) - l.delaySeconds }

  /** The instant viewers really reach an event's tick. */
  function ShownAt(l: Level, it: BufferedEvent): real {
    l.loadedAt + (NumericTick(it) + l.delaySeconds) * 1000.0
  }

  /** A reply read at `u`, its game time floored to whole seconds. */
  predicate ReadAt(l: Level, status: RconStatus, u: real) {
    status.delaySeconds == l.delaySeconds && status.activeTime == GameTime(l, u).Floor as real
  }

  /** What the world does while a single level lasts: replies describe it, nobody recalibrates, and
      no event is posted before it happened. */
  ghost predicate InLevel(l: Level, s: Server, a: Action) {
    match a
    case SampleOk(status) =>
      s.sync.inflight.Some? ==>
        var t := s.sync.inflight.value.sampledAt;
        exists u :: t <= u <= t + l.readLagSeconds * 1000.0 && ReadAt(l, status, u)
    case Calibrate(offsetMs) => offsetMs == 0.0
    case Deliver(e, now) => e.tick.Some? ==> e.tick.value <= GameTime(l, now)
    case _ => true
  }

  ghost predicate Accurate(l: Level, b: ClockBasis) {
    && b.delaySeconds == l.delaySeconds && b.calibrationOffsetMs == 0.0
    && GameTime(l, b.sampledAt) - 1.0 < b.activeTime <= GameTime(l, b.sampledAt) + l.readLagSeconds
  }

  ghost predicate ClocksAccurate(l: Level, s: ServerSync) {
    && (s.clock.Some? ==> s.clock.value.basis.calibrationOffsetMs == 0.0)
    && (s.clock.Some? && s.clock.value.online ==> Accurate(l, s.clock.value.basis))
    && (s.lastEventClock.Some? ==> Accurate(l, s.lastEventClock.value))
    && (s.resetBasis.Some? ==> Accurate(l, s.resetBasis.value))
  }

  lemma AccurateBroadcast(l: Level, b: ClockBasis, now: real)
    requires Accurate(l, b)
    ensures TrueBroadcast(l, now) - 1.0 < BroadcastNow(b, now) <= TrueBroadcast(l, now) + l.readLagSeconds
  {
  }

  lemma ReadIsAccurate(l: Level, s: ServerSync, status: RconStatus)
    requires s.inflight.Some? && ClocksAccurate(l, s)
    requires var t := s.inflight.value.sampledAt;
      exists u :: t <= u <= t + l.readLagSeconds * 1000.0 && ReadAt(l, status, u)
    ensures ClocksAccurate(l, HltvSync.SampleOk(s, status))
  {
    var t := s.inflight.value.sampledAt;
    var u :| t <= u <= t + l.readLagSeconds * 1000.0 && ReadAt(l, status, u);
    assert GameTime(l, t) <= GameTime(l, u) <= GameTime(l, t) + l.readLagSeconds;
  }

  lemma IngestKeepsClocksAccurate(l: Level, s: ServerSync, e: Event, now: real)
    requires ClocksAccurate(l, s)
    ensures ClocksAccurate(l, OnIngestEvent(s, e, now))
  {
    hide OldEpochTick, Accurate;
  }

  lemma SamplingKeepsClocksAccurate(cfg: Config, l: Level, s: ServerSync, reason: string, now: real, message: string)
    requires ClocksAccurate(l, s)
    ensures ClocksAccurate(l, HltvSync.StartSample(s, reason, now))
    ensures ClocksAccurate(l, HltvSync.SampleFail(cfg, s, message))
    ensures ClocksAccurate(l, SetCalibration(s, 0.0))
  {
    hide Accurate;
    assert s.clock.Some? ==>
      s.clock.value.basis.(calibrationOffsetMs := 0.0) == s.clock.value.basis;
  }

  lemma NextKeepsClocksAccurate(env: Env, l: Level, s: Server, a: Action)
    requires ClocksAccurate(l, s.sync) && InLevel(l, s, a)
    ensures ClocksAccurate(l, Next(env, s, a).sync)
  {
    hide OnIngestEvent, Enqueue, EmitClock, ReleaseDue, ClocksAccurate;
    hide HltvSync.StartSample, HltvSync.SampleOk, HltvSync.SampleFail, SetCalibration;
    match a
    case Deliver(e, now) => IngestKeepsClocksAccurate(l, s.sync, e, now);
    case StartSample(reason, now) => SamplingKeepsClocksAccurate(env.cfg, l, s.sync, reason, now, "");
    case SampleOk(status) =>
      if s.sync.inflight.Some? {
        ReadIsAccurate(l, s.sync, status);
        EmitThins(env, s.(sync := HltvSync.SampleOk(s.sync, status)));
      }
    case SampleFail(message) =>
      SamplingKeepsClocksAccurate(env.cfg, l, s.sync, "", 0.0, message);
      EmitThins(env, s.(sync := HltvSync.SampleFail(env.cfg, s.sync, message)));
    case Calibrate(_) =>
      SamplingKeepsClocksAccurate(env.cfg, l, s.sync, "", 0.0, "");
      EmitThins(env, s.(sync := SetCalibration(s.sync, 0.0)));
    case DriverTick(_) =>
  }

  /** Across any run of a level, coasts and failures included, every online clock stays less than a
      second behind the true broadcast and at most the read lag ahead of it. */
  lemma {:induction false} OnlineClockIsAccurate(
      env: Env, l: Level, states: seq<Server>, acts: seq<Action>, k: nat)
    requires RunsFromStart(env, states, acts) && k < |states|
    requires forall i :: 0 <= i < k ==> InLevel(l, states[i], acts[i])
    ensures ClocksAccurate(l, states[k].sync)
    ensures states[k].sync.clock.Some? && states[k].sync.clock.value.online ==>
      forall now ::
        TrueBroadcast(l, now) - 1.0 < BroadcastNow(states[k].sync.clock.value.basis, now)
                                   <= TrueBroadcast(l, now) + l.readLagSeconds
  {
    hide Next, InLevel, Accurate, BroadcastNow, TrueBroadcast;
    if k > 0 {
      OnlineClockIsAccurate(env, l, states, acts, k - 1);
      NextKeepsClocksAccurate(env, l, states[k - 1], acts[k - 1]);
    }
    if states[k].sync.clock.Some? && states[k].sync.clock.value.online {
      forall now ensures TrueBroadcast(l, now) - 1.0 < BroadcastNow(states[k].sync.clock.value.basis, now)
                                                    <= TrueBroadcast(l, now) + l.readLagSeconds {
        AccurateBroadcast(l, states[k].sync.clock.value.basis, now);
      }
    }
  }

  // ---- Provenance and grace ----

  ghost predicate Adopts(s: Server, a: Action) {
    a.SampleOk? && s.sync.inflight.Some?
  }

  /** The sampled parameters of a basis: all but the operator's calibration. */
  function Sampled(b: ClockBasis): (real, real, real) { (b.activeTime, b.delaySeconds, b.sampledAt) }

  lemma AdoptedParameters(env: Env, s: Server, a: Action)
    requires Adopts(s, a)
    ensures var r := Next(env, s, a).sync;
      r.clock.Some? && Sampled(r.clock.value.basis)
                       == (a.status.activeTime, a.status.delaySeconds, s.sync.inflight.value.sampledAt)
  {
    hide ReleaseStranded;
  }

  lemma OnlineOnlyByAdoption(env: Env, s: Server, a: Action)
    requires !Adopts(s, a)
    requires Next(env, s, a).sync.clock.Some? && Next(env, s, a).sync.clock.value.online
    ensures s.sync.clock.Some? && s.sync.clock.value.online
    ensures Sampled(Next(env, s, a).sync.clock.value.basis) == Sampled(s.sync.clock.value.basis)
  {
    hide Enqueue, ReleaseStranded, ReleaseDue, OldEpochTick;
  }

  /** An online clock carries the parameters of the latest reply adopted, stamped with the instant
      its sample began. */
  lemma {:induction false} OnlineClockIsLatestSample(env: Env, states: seq<Server>, acts: seq<Action>, k: nat)
    returns (i: nat)
    requires RunsFromStart(env, states, acts) && k < |states|
    requires states[k].sync.clock.Some? && states[k].sync.clock.value.online
    ensures i < k && Adopts(states[i], acts[i])
    ensures forall j :: i < j < k ==> !Adopts(states[j], acts[j])
    ensures Sampled(states[k].sync.clock.value.basis)
         == (acts[i].status.activeTime, acts[i].status.delaySeconds, states[i].sync.inflight.value.sampledAt)
  {
    hide Next, Sampled, Adopts;
    var s, a := states[k - 1], acts[k - 1];
    assert states[k] == Next(env, s, a);
    hide RunsFromStart;
    if Adopts(s, a) {
      i := k - 1;
      AdoptedParameters(env, s, a);
    } else {
      OnlineOnlyByAdoption(env, s, a);
      i := OnlineClockIsLatestSample(env, states, acts, k - 1);
    }
  }

  ghost predicate Offline(s: Server) {
    s.sync.clock.Some? && !s.sync.clock.value.online
  }

  lemma OfflineUntilAdopted(env: Env, s: Server, a: Action)
    requires Offline(s) && !Adopts(s, a)
    ensures Offline(Next(env, s, a))
  {
    hide Enqueue, ReleaseStranded, ReleaseDue, OldEpochTick;
  }

  lemma PastGraceGoesOffline(env: Env, s: Server, message: string)
    requires s.sync.inflight.Some? && s.sync.clock.Some?
    requires s.sync.inflight.value.sampledAt - s.sync.clock.value.basis.sampledAt > env.cfg.coastGraceSeconds * 1000.0
    ensures Offline(Next(env, s, SampleFail(message)))
  {
    hide ReleaseStranded;
  }

  /** A failure more than the grace period after the last good sample takes the clock offline, and
      there it stays until a sample succeeds. */
  lemma {:induction false} PastGraceIsOffline(env: Env, states: seq<Server>, acts: seq<Action>, fail: nat, k: nat)
    requires Runs(env, states, acts) && fail < k < |states|
    requires acts[fail].SampleFail? && states[fail].sync.inflight.Some? && states[fail].sync.clock.Some?
    requires states[fail].sync.inflight.value.sampledAt - states[fail].sync.clock.value.basis.sampledAt
             > env.cfg.coastGraceSeconds * 1000.0
    requires forall j :: fail < j < k ==> !Adopts(states[j], acts[j])
    ensures Offline(states[k])
  {
    hide Next, Adopts;
    if k - 1 == fail {
      PastGraceGoesOffline(env, states[fail], acts[fail].message);
      assert states[k] == Next(env, states[fail], acts[fail]);
    } else {
      PastGraceIsOffline(env, states, acts, fail, k - 1);
      OfflineUntilAdopted(env, states[k - 1], acts[k - 1]);
    }
  }

  // ---- Never early ----

  /** Posted no earlier than it happened. */
  ghost predicate Happened(l: Level, it: BufferedEvent) {
    it.event.tick.Some? ==> it.event.tick.value <= GameTime(l, it.enqueuedAt)
  }

  /** `at` is no earlier than viewers reach the event, up to the read lag. */
  ghost predicate NotEarly(l: Level, it: BufferedEvent, at: real) {
    it.event.tick.Some? ==> ShownAt(l, it) - l.readLagSeconds * 1000.0 <= at
  }

  ghost predicate LevelInv(l: Level, s: Server) {
    && ClocksAccurate(l, s.sync)
    && (forall it :: it in s.buf.queue ==> Happened(l, it))
    && (forall x :: x in s.buf.draining ==> NotEarly(l, x.item, x.releaseAt))
    && (forall f :: f in s.buf.fired ==> NotEarly(l, f.item, f.at))
  }

  /** The configured fallback is no shorter than the proxy's delay, and the lags are not negative. */
  ghost predicate Covers(cfg: Config, l: Level) {
    && cfg.fallbackDelaySeconds >= l.delaySeconds
    && cfg.boardReleaseLagSeconds >= 0.0
    && l.readLagSeconds >= 0.0
  }

  lemma ProjectionNotEarly(cfg: Config, l: Level, it: BufferedEvent, basis: Option<ClockBasis>)
    requires Covers(cfg, l) && Happened(l, it) && (basis.Some? ==> Accurate(l, basis.value))
    ensures NotEarly(l, it, ProjectReleaseAt(cfg, it, basis))
  {
  }

  lemma DueNotEarly(cfg: Config, l: Level, sync: ServerSync, it: BufferedEvent, now: real)
    requires Covers(cfg, l) && Happened(l, it) && ClocksAccurate(l, sync) && Due(cfg, sync, it, now)
    ensures NotEarly(l, it, now)
  {
  }

  lemma DrainTailNotEarly(cfg: Config, l: Level, sync: ServerSync, b: ServerBuffer, items: seq<BufferedEvent>)
    requires Covers(cfg, l) && ClocksAccurate(l, sync)
    requires forall it :: it in items ==> Happened(l, it)
    requires forall x :: x in b.draining ==> NotEarly(l, x.item, x.releaseAt)
    ensures forall x :: x in DrainTail(cfg, sync, b, items).draining ==> NotEarly(l, x.item, x.releaseAt)
  {
    hide NotEarly, Happened, ProjectReleaseAt, Accurate, Covers;
    var stamped := Stamp(cfg, items, TailBasis(sync));
    forall x | x in stamped ensures NotEarly(l, x.item, x.releaseAt) {
      ProjectionNotEarly(cfg, l, x.item, TailBasis(sync));
    }
    forall x | x in DrainTail(cfg, sync, b, items).draining ensures NotEarly(l, x.item, x.releaseAt) {
      if items != [] {
        assert x in multiset(SortByRelease(b.draining + stamped));
        assert x in b.draining || x in stamped;
      }
    }
  }

  lemma EnqueueNotEarly(cfg: Config, l: Level, sync: ServerSync, b: ServerBuffer, it: BufferedEvent, now: real)
    requires Covers(cfg, l) && ClocksAccurate(l, sync) && Happened(l, it)
    requires forall x :: x in b.queue ==> Happened(l, x)
    requires forall x :: x in b.draining ==> NotEarly(l, x.item, x.releaseAt)
    ensures var r := Enqueue(cfg, sync, b, it, now);
      && (forall x :: x in r.queue ==> Happened(l, x))
      && (forall x :: x in r.draining ==> NotEarly(l, x.item, x.releaseAt))
      && r.fired == b.fired
  {
    hide DrainTail, NotEarly, Happened, OldEpochTick, ClocksAccurate;
    DrainTailNotEarly(cfg, l, sync, b, [it]);
    DrainTailNotEarly(cfg, l, sync, b, b.queue);
    InsertByTickMembers(b.queue, it);
    DrainTailFrame(cfg, sync, b, [it]);
    DrainTailFrame(cfg, sync, b, b.queue);
  }

  lemma DeliverNotEarly(env: Env, l: Level, s: Server, e: Event, now: real)
    requires Covers(env.cfg, l) && LevelInv(l, s) && InLevel(l, s, Deliver(e, now))
    ensures LevelInv(l, DeliverTo(env, s, e, now))
  {
    NextKeepsClocksAccurate(env, l, s, Deliver(e, now));
    hide Enqueue, OnIngestEvent, NotEarly, ClocksAccurate;
    EnqueueNotEarly(env.cfg, l, OnIngestEvent(s.sync, e, now), s.buf, Numbered(env, s, e, now), now);
  }

  lemma EmitNotEarly(env: Env, l: Level, s: Server)
    requires Covers(env.cfg, l) && LevelInv(l, s)
    ensures LevelInv(l, EmitClock(env, s))
  {
    hide DrainTail, NotEarly, Happened, ClocksAccurate;
    if s.sync.clock.Some? {
      var activeTime := s.sync.clock.value.basis.activeTime;
      var kept := s.buf.(queue := Sift(s.buf.queue, activeTime, false));
      DrainTailNotEarly(env.cfg, l, s.sync, kept, Sift(s.buf.queue, activeTime, true));
      DrainTailFrame(env.cfg, s.sync, kept, Sift(s.buf.queue, activeTime, true));
    }
  }

  lemma ReleaseDrainNotEarly(l: Level, b: ServerBuffer, now: real)
    requires forall x :: x in b.draining ==> NotEarly(l, x.item, x.releaseAt)
    requires forall f :: f in b.fired ==> NotEarly(l, f.item, f.at)
    ensures var r := ReleaseDrain(b, now);
      && r.queue == b.queue
      && (forall x :: x in r.draining ==> NotEarly(l, x.item, x.releaseAt))
      && (forall f :: f in r.fired ==> NotEarly(l, f.item, f.at))
  {
    var n := DueCount(b.draining, now);
    var fires := FireDrained(b.draining[..n], now);
    forall f | f in fires ensures NotEarly(l, f.item, f.at) {
      var i :| 0 <= i < n && fires[i] == f;
      assert b.draining[i] in b.draining;
    }
  }

  lemma ReleaseQueueNotEarly(cfg: Config, l: Level, sync: ServerSync, b: ServerBuffer, now: real)
    requires Covers(cfg, l) && ClocksAccurate(l, sync)
    requires forall it :: it in b.queue ==> Happened(l, it)
    requires forall f :: f in b.fired ==> NotEarly(l, f.item, f.at)
    ensures var r := ReleaseQueue(cfg, sync, b, now);
      && r.draining == b.draining
      && (forall it :: it in r.queue ==> Happened(l, it))
      && (forall f :: f in r.fired ==> NotEarly(l, f.item, f.at))
  {
    hide NotEarly, Happened, ClocksAccurate, Due;
    var n := ReadyCount(cfg, sync, b.queue, now);
    var fires := FireQueued(b.queue[..n], now);
    forall f | f in fires ensures NotEarly(l, f.item, f.at) {
      var i :| 0 <= i < n && fires[i] == f;
      assert b.queue[i] in b.queue;
      DueNotEarly(cfg, l, sync, b.queue[i], now);
    }
  }

  lemma NextNotEarly(env: Env, l: Level, s: Server, a: Action)
    requires Covers(env.cfg, l) && LevelInv(l, s) && InLevel(l, s, a)
    ensures LevelInv(l, Next(env, s, a))
  {
    hide DeliverTo, EmitClock, ReleaseDrain, ReleaseQueue, Accurate, NotEarly;
    match a
    case Deliver(e, now) => DeliverNotEarly(env, l, s, e, now);
    case StartSample(_, _) =>
    case SampleOk(status) =>
      if s.sync.inflight.Some? {
        ReadIsAccurate(l, s.sync, status);
        EmitNotEarly(env, l, s.(sync := HltvSync.SampleOk(s.sync, status)));
      }
    case SampleFail(message) => EmitNotEarly(env, l, s.(sync := HltvSync.SampleFail(env.cfg, s.sync, message)));
    case Calibrate(offsetMs) => EmitNotEarly(env, l, s.(sync := SetCalibration(s.sync, offsetMs)));
    case DriverTick(now) =>
      ReleaseDrainNotEarly(l, s.buf, now);
      ReleaseQueueNotEarly(env.cfg, l, s.sync, ReleaseDrain(s.buf, now), now);
  }

  /** While one level lasts no event is fired before viewers reach its tick, less the read lag,
      whichever queue released it and however many samples failed. */
  lemma {:induction false} NeverEarlyWithinALevel(
      env: Env, l: Level, states: seq<Server>, acts: seq<Action>, k: nat)
    requires RunsFromStart(env, states, acts) && k < |states| && Covers(env.cfg, l)
    requires forall i :: 0 <= i < k ==> InLevel(l, states[i], acts[i])
    ensures LevelInv(l, states[k])
  {
    hide Next, InLevel, LevelInv, Covers;
    if k > 0 {
      NeverEarlyWithinALevel(env, l, states, acts, k - 1);
      NextNotEarly(env, l, states[k - 1], acts[k - 1]);
    } else {
      StartNotEarly(l);
    }
  }

  lemma StartNotEarly(l: Level)
    ensures LevelInv(l, INIT)
  {
  }

  /** Nor late: under an online clock of the level a queued event falls due less than a second
      after viewers reach it. */
  lemma DueWithinASecond(cfg: Config, l: Level, sync: ServerSync, it: BufferedEvent)
    requires ClocksAccurate(l, sync) && sync.clock.Some? && sync.clock.value.online
    ensures ShownAt(l, it) - l.readLagSeconds * 1000.0 <= DueAt(cfg, sync, it) < ShownAt(l, it) + 1000.0
  {
  }

  // ---- Across a boundary ----

  /** The event that reveals a same-map boundary is held for the full fallback delay; the one that
      reveals a map change is measured against the clock of the map that has ended, which stays
      online until the forced sample answers. */
  lemma OnlyTickResetHoldsNewLevel(env: Env, s: Server, e: Event, now: real, at: real)
    requires s.sync.lazyInited && s.sync.clock.Some? && s.sync.clock.value.online
    ensures var next := DeliverTo(env, s, e, now); var it := Numbered(env, s, e, now);
      && (TickReset(s.sync, e, now) ==>
            (Due(env.cfg, next.sync, it, at) <==> at - now >= env.cfg.fallbackDelaySeconds * 1000.0))
      && (MapChanged(s.sync, e) ==>
            (Due(env.cfg, next.sync, it, at) <==> NumericTick(it) <= BroadcastNow(s.sync.clock.value.basis, at)))
  {
    hide Enqueue, OldEpochTick;
  }
}
