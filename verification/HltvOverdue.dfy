/** Lateness across changes of level: when exactly an event is made to wait for a later level's clock, and that
    otherwise everything falls due within a hold of its post or of the change. */
module HltvOverdue {
  import opened Wrappers
  import opened HltvSync
  import opened HltvDelayBuffer
  import opened HltvPipeline
  import opened HltvLaws
  import opened HltvBoundary
  import opened HltvAccuracy
  import opened HltvLateness
  import opened HltvEpochs

  /** Posted after its level was loaded and no earlier than it happened. */
  predicate Dated(w: World, it: BufferedEvent) { NumericTick(it) <= GameTime(LevelOf(w, it.arrival), it.enqueuedAt) }

  /** The longest an event can be held after it is posted, in milliseconds: no proxy's delay is longer than the
      fallback. */
  function HoldMs(cfg: Config): real { (cfg.fallbackDelaySeconds + 1.0 + cfg.boardReleaseLagSeconds) * 1000.0 }

  /** One hold past the post, or what an event within a threshold of a later level at the turn to it, `turn(j)` from
      level `j`, can wait for. */
  function HeldUntil(cfg: Config, w: World, turn: nat -> real, it: BufferedEvent): real {
    Longer(it.enqueuedAt, turn(IndexOf(w, it)) + TICK_RESET_THRESHOLD_S * 1000.0) + HoldMs(cfg)
  }

  /** The level `l` was within a threshold of the event's tick at the turn from the event's level. */
  predicate Near(w: World, turn: nat -> real, it: BufferedEvent, l: Level) {
    NumericTick(it) <= GameTime(l, turn(IndexOf(w, it))) + TICK_RESET_THRESHOLD_S
  }

  /** A basis is there, and every level it describes is later than the event's and was not near. */
  ghost predicate TooLong(w: World, turn: nat -> real, it: BufferedEvent, basis: Option<ClockBasis>) {
    && basis.Some?
    && forall i: nat :: Accurate(w.level(i), basis.value) ==> i > IndexOf(w, it) && !Near(w, turn, it, w.level(i))
  }

  /** Not so close to the threshold that a clock's error decides: viewers of a level that was not near reach the
      event's tick only after it should have been released. */
  ghost predicate Clear(cfg: Config, w: World, turn: nat -> real, it: BufferedEvent, basis: Option<ClockBasis>) {
    TooLong(w, turn, it, basis) ==>
      forall i: nat :: Accurate(w.level(i), basis.value) ==>
        ShownAt(w.level(i), it) - w.level(i).readLagSeconds * 1000.0 > HeldUntil(cfg, w, turn, it)
  }

  // ---- When an instant is late ----

  lemma StampWithin(cfg: Config, l: Level, it: BufferedEvent, b: ClockBasis)
    requires Covers(cfg, l) && Accurate(l, b)
    ensures
      ShownAt(l, it) - l.readLagSeconds * 1000.0 <= ProjectReleaseAt(cfg, it, Some(b))
      <= ShownAt(l, it) + (1.0 + cfg.boardReleaseLagSeconds) * 1000.0
  {
  }

  lemma DueWithin(cfg: Config, l: Level, sync: ServerSync, it: BufferedEvent)
    requires Covers(cfg, l) && OnlineBasis(sync).Some? && Accurate(l, OnlineBasis(sync).value)
    ensures
      ShownAt(l, it) - l.readLagSeconds * 1000.0 <= DueAt(cfg, sync, it)
      <= ShownAt(l, it) + (1.0 + cfg.boardReleaseLagSeconds) * 1000.0
  {
  }

  /** Viewers of the event's own level, or of an earlier one, reach its tick within a hold of its post. */
  lemma ShownInHold(cfg: Config, w: World, i: nat, it: BufferedEvent)
    requires Sensible(cfg, w) && Dated(w, it) && i <= IndexOf(w, it)
    ensures ShownAt(w.level(i), it) + (1.0 + cfg.boardReleaseLagSeconds) * 1000.0 <= it.enqueuedAt + HoldMs(cfg)
  {
    InTurn(cfg, w, i, IndexOf(w, it));
    hide Sensible;
    var l := LevelOf(w, it.arrival);
    assert ShownAt(w.level(i), it) <= ShownAt(l, it) <= it.enqueuedAt + l.delaySeconds * 1000.0;
  }

  lemma ShownNear(cfg: Config, w: World, turn: nat -> real, i: nat, it: BufferedEvent)
    requires Sensible(cfg, w) && Near(w, turn, it, w.level(i))
    ensures
      ShownAt(w.level(i), it) + (1.0 + cfg.boardReleaseLagSeconds) * 1000.0
      <= turn(IndexOf(w, it)) + TICK_RESET_THRESHOLD_S * 1000.0 + HoldMs(cfg)
  {
    InTurn(cfg, w, i, i);
    hide Sensible;
  }

  lemma ShownInTime(cfg: Config, w: World, turn: nat -> real, i: nat, it: BufferedEvent)
    requires Sensible(cfg, w) && Dated(w, it) && (i <= IndexOf(w, it) || Near(w, turn, it, w.level(i)))
    ensures
      ShownAt(w.level(i), it) + (1.0 + cfg.boardReleaseLagSeconds) * 1000.0 <= HeldUntil(cfg, w, turn, it)
  {
    if i <= IndexOf(w, it) {
      ShownInHold(cfg, w, i, it);
    } else {
      ShownNear(cfg, w, turn, i, it);
    }
    hide Sensible, ShownAt, HoldMs, Near;
  }

  /** A stamp off a basis of some level is in time, unless every level it describes is later than the event's and
      was not near; and then it is late. */
  lemma StampedLateExactlyWhen(
      cfg: Config, w: World, turn: nat -> real, it: BufferedEvent, basis: Option<ClockBasis>)
    requires Sensible(cfg, w) && Dated(w, it) && (basis.Some? ==> Describes(w, basis.value))
    ensures
      var at := ProjectReleaseAt(cfg, it, basis);
      && (!TooLong(w, turn, it, basis) ==> at <= HeldUntil(cfg, w, turn, it))
      && (Clear(cfg, w, turn, it, basis) ==> (at > HeldUntil(cfg, w, turn, it) <==> TooLong(w, turn, it, basis)))
  {
    if basis.None? {
      InTurn(cfg, w, 0, 0);
    } else {
      var i: nat :| Accurate(w.level(i), basis.value)
        && (TooLong(w, turn, it, basis) || i <= IndexOf(w, it) || Near(w, turn, it, w.level(i)));
      InTurn(cfg, w, i, i);
      StampWithin(cfg, w.level(i), it, basis.value);
      hide Sensible, Accurate, ProjectReleaseAt, ShownAt, HeldUntil, Near, Dated;
      if !TooLong(w, turn, it, basis) {
        ShownInTime(cfg, w, turn, i, it);
      }
    }
  }

  /** The same of a queued event's turn. */
  lemma DueLateExactlyWhen(cfg: Config, w: World, turn: nat -> real, sync: ServerSync, it: BufferedEvent)
    requires Sensible(cfg, w) && Dated(w, it) && Described(w, sync)
    ensures
      var at, basis := DueAt(cfg, sync, it), OnlineBasis(sync);
      && (!TooLong(w, turn, it, basis) ==> at <= HeldUntil(cfg, w, turn, it))
      && (Clear(cfg, w, turn, it, basis) ==> (at > HeldUntil(cfg, w, turn, it) <==> TooLong(w, turn, it, basis)))
  {
    var basis := OnlineBasis(sync);
    if basis.None? {
      InTurn(cfg, w, 0, 0);
    } else {
      var i: nat :| Accurate(w.level(i), basis.value)
        && (TooLong(w, turn, it, basis) || i <= IndexOf(w, it) || Near(w, turn, it, w.level(i)));
      InTurn(cfg, w, i, i);
      DueWithin(cfg, w.level(i), sync, it);
      hide Sensible, Accurate, DueAt, ShownAt, HeldUntil, Near, Dated;
      if !TooLong(w, turn, it, basis) {
        ShownInTime(cfg, w, turn, i, it);
      }
    }
  }

  /** A basis is there and describes only levels after `j`. */
  ghost predicate Ahead(w: World, j: nat, basis: Option<ClockBasis>) {
    basis.Some? && forall i: nat :: i <= j ==> !Accurate(w.level(i), basis.value)
  }

  /** Under no clock, or one of its own level or an earlier one, a queued event falls due a hold past its post. */
  lemma DueInHold(cfg: Config, w: World, sync: ServerSync, it: BufferedEvent)
    requires Sensible(cfg, w) && Dated(w, it) && !Ahead(w, IndexOf(w, it), OnlineBasis(sync))
    ensures DueAt(cfg, sync, it) <= it.enqueuedAt + HoldMs(cfg)
  {
    if OnlineBasis(sync).None? {
      InTurn(cfg, w, 0, 0);
    } else {
      var i: nat :| i <= IndexOf(w, it) && Accurate(w.level(i), OnlineBasis(sync).value);
      InTurn(cfg, w, i, i);
      DueWithin(cfg, w.level(i), sync, it);
      ShownInHold(cfg, w, i, it);
    }
  }

  lemma NotAheadIsNotTooLong(w: World, turn: nat -> real, it: BufferedEvent, basis: Option<ClockBasis>)
    requires !Ahead(w, IndexOf(w, it), basis)
    ensures !TooLong(w, turn, it, basis)
  {
  }

  // ---- What makes an event wait ----

  /** The step stamps some event with a late instant. */
  ghost predicate StampsLate(cfg: Config, w: World, turn: nat -> real, s: Server, r: Server) {
    exists i :: |s.drained| <= i < |r.drained| && r.drained[i].releaseAt > HeldUntil(cfg, w, turn, r.drained[i].item)
  }

  /** A delivery drains an event off a basis too long for it: itself as a straggler, or with a queue it evicts. */
  ghost predicate DeliveryDelays(env: Env, w: World, turn: nat -> real, s: Server, e: Event, now: real) {
    var seen, it := OnIngestEvent(s.sync, e, now), Numbered(env, s, e, now);
    if OldEpochTick(seen, NumericTick(it), now) then TooLong(w, turn, it, TailBasis(seen))
    else TailFarAbove(s.buf.queue, NumericTick(it))
         && exists x :: x in s.buf.queue && TooLong(w, turn, x, TailBasis(seen))
  }

  /** An emission rescues an event off a basis too long for it. */
  ghost predicate EmissionDelays(w: World, turn: nat -> real, s: Server) {
    && s.sync.clock.Some? && s.sync.clock.value.online && s.sync.clock.value.lastError == ""
    && exists x :: x in s.buf.queue && Stranded(x, s.sync.clock.value.basis.activeTime)
                   && TooLong(w, turn, x, TailBasis(s.sync))
  }

  lemma MoveStampsLateExactlyWhen(
      env: Env, w: World, turn: nat -> real, s: Server, moved: seq<BufferedEvent>, r: Server)
    requires Sensible(env.cfg, w) && Described(w, s.sync)
    requires forall it :: it in moved ==> Dated(w, it) && Clear(env.cfg, w, turn, it, TailBasis(s.sync))
    requires r.drained == Record(env, s, moved)
    ensures StampsLate(env.cfg, w, turn, s, r) <==> exists x :: x in moved && TooLong(w, turn, x, TailBasis(s.sync))
  {
    hide Describes, Described, ProjectReleaseAt, HeldUntil, Sensible, TooLong, Dated, Clear, TailBasis;
    TailIsDescribed(w, s.sync);
    var n := |s.drained|;
    forall i | n <= i < |r.drained|
      ensures r.drained[i].item == moved[i - n] && moved[i - n] in moved
      ensures r.drained[i].releaseAt > HeldUntil(env.cfg, w, turn, r.drained[i].item)
              <==> TooLong(w, turn, moved[i - n], TailBasis(s.sync))
    {
      StampedLateExactlyWhen(env.cfg, w, turn, moved[i - n], TailBasis(s.sync));
    }
    if x :| x in moved && TooLong(w, turn, x, TailBasis(s.sync)) {
      var j :| 0 <= j < |moved| && moved[j] == x;
      assert r.drained[n + j].item == x;
    }
  }

  ghost predicate AllClear(cfg: Config, w: World, turn: nat -> real, s: Server, basis: Option<ClockBasis>) {
    forall x :: x in s.buf.queue ==> Dated(w, x) && Clear(cfg, w, turn, x, basis)
  }

  /** Per delivery: an event is stamped late if and only if the guard holds. */
  lemma DeliveryStampsLateExactlyWhen(env: Env, w: World, turn: nat -> real, s: Server, e: Event, now: real)
    requires Sensible(env.cfg, w) && Described(w, s.sync)
    requires
      var basis := TailBasis(OnIngestEvent(s.sync, e, now));
      && AllClear(env.cfg, w, turn, s, basis) && Dated(w, Numbered(env, s, e, now))
      && Clear(env.cfg, w, turn, Numbered(env, s, e, now), basis)
    ensures StampsLate(env.cfg, w, turn, s, DeliverTo(env, s, e, now)) <==> DeliveryDelays(env, w, turn, s, e, now)
  {
    var it := Numbered(env, s, e, now);
    var seen := s.(sync := OnIngestEvent(s.sync, e, now));
    IngestKeepsDescribed(w, s.sync, e, now);
    var moved := Moved(seen.sync, s.buf, it, now);
    hide OnIngestEvent, OldEpochTick, Described, Dated, Clear, Enqueue, TailBasis;
    assert moved == [it] ==> it in moved;
    MoveStampsLateExactlyWhen(env, w, turn, seen, moved, DeliverTo(env, s, e, now));
    hide TooLong, HeldUntil;
    SameLate(env.cfg, w, turn, s, seen, DeliverTo(env, s, e, now));
  }

  lemma SameLate(cfg: Config, w: World, turn: nat -> real, s: Server, t: Server, r: Server)
    requires s.drained == t.drained
    ensures StampsLate(cfg, w, turn, s, r) <==> StampsLate(cfg, w, turn, t, r)
  {
  }

  /** Per emission: likewise. */
  lemma EmissionStampsLateExactlyWhen(env: Env, w: World, turn: nat -> real, s: Server)
    requires Sensible(env.cfg, w) && Described(w, s.sync) && AllClear(env.cfg, w, turn, s, TailBasis(s.sync))
    ensures StampsLate(env.cfg, w, turn, s, EmitClock(env, s)) <==> EmissionDelays(w, turn, s)
  {
    hide Described, Dated, Clear, HeldUntil, TooLong, Stamp, ReleaseStranded, TailBasis;
    if s.sync.clock.Some? {
      var moved := Sift(s.buf.queue, s.sync.clock.value.basis.activeTime, true);
      if EmitClock(env, s) != s {
        MoveStampsLateExactlyWhen(env, w, turn, s, moved, EmitClock(env, s));
      }
    }
  }

  // ---- Otherwise everything fires in time ----

  /** What can make an event wait for a later level's clock: a stamp as above, a post queued under a clock too long
      for it, or a reply too long for an event that it leaves queued. */
  ghost predicate Delays(env: Env, w: World, turn: nat -> real, s: Server, a: Action) {
    match a
    case Deliver(e, now) =>
      || DeliveryDelays(env, w, turn, s, e, now)
      || (TooLong(w, turn, Numbered(env, s, e, now), OnlineBasis(OnIngestEvent(s.sync, e, now)))
          && !OldEpochTick(OnIngestEvent(s.sync, e, now), e.tick.GetOr(0.0), now))
    case StartSample(_, _) => false
    case SampleOk(status) =>
      s.sync.inflight.Some? &&
      var t := s.(sync := HltvSync.SampleOk(s.sync, status));
      || EmissionDelays(w, turn, t)
      || exists x :: x in s.buf.queue && !Stranded(x, status.activeTime) && TooLong(w, turn, x, OnlineBasis(t.sync))
    case SampleFail(message) =>
      s.sync.inflight.Some? && EmissionDelays(w, turn, s.(sync := HltvSync.SampleFail(env.cfg, s.sync, message)))
    case Calibrate(offsetMs) => EmissionDelays(w, turn, s.(sync := SetCalibration(s.sync, offsetMs)))
    case DriverTick(_) => false
  }

  ghost predicate LongHoldInv(cfg: Config, w: World, turn: nat -> real, s: Server) {
    && Described(w, s.sync)
    && (forall it :: it in s.buf.queue ==> Dated(w, it) && !TooLong(w, turn, it, OnlineBasis(s.sync)))
    && (forall x :: x in s.buf.draining ==> x.releaseAt <= HeldUntil(cfg, w, turn, x.item))
  }

  /** The levels' life: as `Worldly` says, and a post without a tick comes after its level was loaded. */
  ghost predicate AllLived(w: World, s: Server, a: Action) {
    Worldly(w, s, a) && (a.Deliver? && a.event.tick.None? ==> LevelOf(w, |s.accepted|).loadedAt <= a.now)
  }

  lemma PostIsDated(env: Env, w: World, s: Server, e: Event, now: real)
    requires AllLived(w, s, Deliver(e, now))
    ensures Dated(w, Numbered(env, s, e, now))
  {
  }

  lemma DrainTailInTime(cfg: Config, w: World, turn: nat -> real, s: Server, items: seq<BufferedEvent>)
    requires Sensible(cfg, w) && Described(w, s.sync)
    requires forall it :: it in items ==> Dated(w, it)
    requires forall it :: it in items ==> !TooLong(w, turn, it, TailBasis(s.sync))
    requires forall x :: x in s.buf.draining ==> x.releaseAt <= HeldUntil(cfg, w, turn, x.item)
    ensures forall x :: x in DrainTail(cfg, s.sync, s.buf, items).draining ==>
              x.releaseAt <= HeldUntil(cfg, w, turn, x.item)
  {
    hide ProjectReleaseAt, Describes, Described, Sensible, TooLong, Dated, TailBasis, HeldUntil;
    var stamped := Stamp(cfg, items, TailBasis(s.sync));
    TailIsDescribed(w, s.sync);
    forall x | x in stamped ensures x.releaseAt <= HeldUntil(cfg, w, turn, x.item) {
      var i :| 0 <= i < |stamped| && stamped[i] == x;
      assert items[i] in items;
      StampedLateExactlyWhen(cfg, w, turn, x.item, TailBasis(s.sync));
    }
    forall x | x in DrainTail(cfg, s.sync, s.buf, items).draining
      ensures x.releaseAt <= HeldUntil(cfg, w, turn, x.item)
    {
      if items != [] {
        assert x in multiset(SortByRelease(s.buf.draining + stamped));
        assert x in s.buf.draining || x in stamped;
      }
    }
  }

  lemma IngestKeepsOnline(s: ServerSync, e: Event, now: real)
    ensures OnlineBasis(OnIngestEvent(s, e, now)).Some? ==> OnlineBasis(OnIngestEvent(s, e, now)) == OnlineBasis(s)
  {
    hide OldEpochTick;
  }

  /** What detection leaves online was online, so nothing queued waits longer for it. */
  lemma DetectionDelaysNothing(w: World, turn: nat -> real, s: Server, e: Event, now: real)
    requires forall x :: x in s.buf.queue ==> !TooLong(w, turn, x, OnlineBasis(s.sync))
    ensures forall x :: x in s.buf.queue ==> !TooLong(w, turn, x, OnlineBasis(OnIngestEvent(s.sync, e, now)))
  {
    IngestKeepsOnline(s.sync, e, now);
    hide OnIngestEvent, Accurate, Near;
  }

  lemma DeliverDrainsInTime(env: Env, w: World, turn: nat -> real, s: Server, e: Event, now: real)
    requires Sensible(env.cfg, w) && LongHoldInv(env.cfg, w, turn, s) && AllLived(w, s, Deliver(e, now))
    requires !DeliveryDelays(env, w, turn, s, e, now)
    ensures forall x :: x in DeliverTo(env, s, e, now).buf.draining ==>
              x.releaseAt <= HeldUntil(env.cfg, w, turn, x.item)
  {
    var it := Numbered(env, s, e, now);
    var seen := s.(sync := OnIngestEvent(s.sync, e, now));
    PostIsDated(env, w, s, e, now);
    IngestKeepsDescribed(w, s.sync, e, now);
    DeliverMoves(env, s, e, now);
    InsertByTickMembers(s.buf.queue, Numbered(env, s, e, now));
    hide OnIngestEvent, OldEpochTick, Described, Dated, TooLong, TailBasis, OnlineBasis, DrainTail, HeldUntil, Sensible,
         TailFarAbove, DeliverTo;
    if OldEpochTick(seen.sync, NumericTick(it), now) {
      DrainTailInTime(env.cfg, w, turn, seen, [it]);
    } else if TailFarAbove(s.buf.queue, NumericTick(it)) {
      DrainTailInTime(env.cfg, w, turn, seen, s.buf.queue);
    }
  }

  lemma DeliverInTime(env: Env, w: World, turn: nat -> real, s: Server, e: Event, now: real)
    requires Sensible(env.cfg, w) && LongHoldInv(env.cfg, w, turn, s) && AllLived(w, s, Deliver(e, now))
    requires !Delays(env, w, turn, s, Deliver(e, now))
    ensures LongHoldInv(env.cfg, w, turn, DeliverTo(env, s, e, now))
  {
    DeliverDrainsInTime(env, w, turn, s, e, now);
    PostIsDated(env, w, s, e, now);
    IngestKeepsDescribed(w, s.sync, e, now);
    DetectionDelaysNothing(w, turn, s, e, now);
    DeliverAccepts(env, s, e, now);
    DeliverMoves(env, s, e, now);
    InsertByTickMembers(s.buf.queue, Numbered(env, s, e, now));
    hide OnIngestEvent, OldEpochTick, Described, Dated, TooLong, TailBasis, OnlineBasis, DrainTail, HeldUntil, Sensible,
         TailFarAbove, DeliverTo, DeliveryDelays, Worldly;
  }

  /** An emission that leaves nothing queued under a clock too long for it. */
  lemma EmitInTime(env: Env, w: World, turn: nat -> real, s: Server)
    requires Sensible(env.cfg, w) && Described(w, s.sync) && !EmissionDelays(w, turn, s)
    requires forall it :: it in s.buf.queue ==> Dated(w, it)
    requires forall x :: x in s.buf.draining ==> x.releaseAt <= HeldUntil(env.cfg, w, turn, x.item)
    requires forall it :: it in EmitClock(env, s).buf.queue ==> !TooLong(w, turn, it, OnlineBasis(s.sync))
    ensures LongHoldInv(env.cfg, w, turn, EmitClock(env, s))
  {
    hide Described, Dated, TooLong, TailBasis, DrainTail, HeldUntil, Stranded;
    EmitThins(env, s);
    if s.sync.clock.Some? && s.sync.clock.value.online && s.sync.clock.value.lastError == "" {
      var activeTime := s.sync.clock.value.basis.activeTime;
      var stranded := Sift(s.buf.queue, activeTime, true);
      var kept := s.(buf := s.buf.(queue := Sift(s.buf.queue, activeTime, false)));
      DrainTailInTime(env.cfg, w, turn, kept, stranded);
      DrainTailFrame(env.cfg, s.sync, kept.buf, stranded);
    }
  }

  /** What an emission leaves queued was queued, and after a reply is within a threshold of it. */
  lemma EmissionThins(env: Env, s: Server)
    ensures forall x :: x in EmitClock(env, s).buf.queue ==>
      && x in s.buf.queue
      && (s.sync.clock.Some? && s.sync.clock.value.online && s.sync.clock.value.lastError == "" ==>
            !Stranded(x, s.sync.clock.value.basis.activeTime))
  {
    hide Stranded, Stamp, SortByRelease, TailBasis;
  }

  lemma SampleInTime(env: Env, w: World, turn: nat -> real, s: Server, a: Action)
    requires Sensible(env.cfg, w) && LongHoldInv(env.cfg, w, turn, s) && AllLived(w, s, a)
    requires !Delays(env, w, turn, s, a) && (a.SampleOk? || a.SampleFail? || a.Calibrate?)
    ensures LongHoldInv(env.cfg, w, turn, Next(env, s, a))
  {
    hide EmitClock, EmissionDelays, Described, Dated, TooLong, HeldUntil, Stranded, ReadIn;
    match a
    case SampleOk(status) =>
      if s.sync.inflight.Some? {
        var t := s.(sync := HltvSync.SampleOk(s.sync, status));
        ReplyKeepsDescribed(w, s, status);
        EmissionThins(env, t);
        EmitInTime(env, w, turn, t);
      }
    case SampleFail(message) =>
      if s.sync.inflight.Some? {
        var t := s.(sync := HltvSync.SampleFail(env.cfg, s.sync, message));
        FailKeepsDescribed(env.cfg, w, s.sync, message);
        EmissionThins(env, t);
        FailLosesOnly(env.cfg, w, turn, s.sync, message);
        EmitInTime(env, w, turn, t);
      }
    case Calibrate(offsetMs) =>
      var t := s.(sync := SetCalibration(s.sync, offsetMs));
      FailKeepsDescribed(env.cfg, w, s.sync, "");
      ZeroKeepsOnline(w, s.sync);
      EmissionThins(env, t);
      EmitInTime(env, w, turn, t);
  }

  /** A failure leaves the clock as it was or takes it offline. */
  lemma FailLosesOnly(cfg: Config, w: World, turn: nat -> real, s: ServerSync, message: string)
    ensures forall x :: TooLong(w, turn, x, OnlineBasis(HltvSync.SampleFail(cfg, s, message))) ==>
              TooLong(w, turn, x, OnlineBasis(s))
  {
  }

  lemma ZeroKeepsOnline(w: World, s: ServerSync)
    requires Described(w, s)
    ensures OnlineBasis(SetCalibration(s, 0.0)) == OnlineBasis(s)
  {
  }

  lemma StepInTime(env: Env, w: World, turn: nat -> real, s: Server, a: Action)
    requires Sensible(env.cfg, w) && LongHoldInv(env.cfg, w, turn, s) && AllLived(w, s, a)
    requires !Delays(env, w, turn, s, a)
    ensures LongHoldInv(env.cfg, w, turn, Next(env, s, a))
  {
    match a
    case Deliver(e, now) => DeliverInTime(env, w, turn, s, e, now);
    case StartSample(reason, now) => QuietInTime(env, w, turn, s, a);
    case SampleOk(_) => SampleInTime(env, w, turn, s, a);
    case SampleFail(_) => SampleInTime(env, w, turn, s, a);
    case Calibrate(_) => SampleInTime(env, w, turn, s, a);
    case DriverTick(now) => QuietInTime(env, w, turn, s, a);
  }

  lemma QuietInTime(env: Env, w: World, turn: nat -> real, s: Server, a: Action)
    requires LongHoldInv(env.cfg, w, turn, s) && (a.StartSample? || a.DriverTick?)
    ensures LongHoldInv(env.cfg, w, turn, Next(env, s, a))
  {
    hide Describes, Dated, TooLong, HeldUntil;
    var r := Next(env, s, a).buf;
    assert forall it :: it in r.queue ==> it in s.buf.queue;
    assert forall x :: x in r.draining ==> x in s.buf.draining;
  }

  lemma {:induction false} RunInTime(
      env: Env, w: World, turn: nat -> real, states: seq<Server>, acts: seq<Action>, k: nat)
    requires RunsFromStart(env, states, acts) && k < |states| && Sensible(env.cfg, w)
    requires forall i :: 0 <= i < k ==> AllLived(w, states[i], acts[i]) && !Delays(env, w, turn, states[i], acts[i])
    ensures LongHoldInv(env.cfg, w, turn, states[k])
  {
    hide Next, AllLived, Delays, Sensible, HeldUntil, Dated;
    if k > 0 {
      RunInTime(env, w, turn, states, acts, k - 1);
      StepInTime(env, w, turn, states[k - 1], acts[k - 1]);
    }
  }

  /** Lateness across changes of level: over every run in which no step makes an event wait for a later level's
      clock, an event of any level past its time has fired by a driver tick, or waits behind one that is not past
      its own. */
  lemma OverdueOnlyBehindNewer(env: Env, w: World, turn: nat -> real, states: seq<Server>, acts: seq<Action>, k: nat,
                               it: BufferedEvent) returns (x: BufferedEvent)
    requires RunsFromStart(env, states, acts) && k < |acts| && Sensible(env.cfg, w)
    requires forall i :: 0 <= i < k ==> AllLived(w, states[i], acts[i]) && !Delays(env, w, turn, states[i], acts[i])
    requires acts[k].DriverTick? && it in states[k].accepted && HeldUntil(env.cfg, w, turn, it) <= acts[k].now
    ensures
      || it in FiredItems(states[k + 1].buf.fired)
      || (x in states[k].accepted && InFrontOf(states[k + 1].buf, x, it)
          && HeldUntil(env.cfg, w, turn, x) > acts[k].now)
  {
    hide Next, AllLived, Delays, Sensible, HeldUntil, Dated, DueAt, TooLong, InFrontOf;
    RunInTime(env, w, turn, states, acts, k);
    forall y | y in states[k].buf.queue
      ensures DueAt(env.cfg, states[k].sync, y) <= HeldUntil(env.cfg, w, turn, y)
    {
      DueLateExactlyWhen(env.cfg, w, turn, states[k].sync, y);
    }
    x := FiresUnlessBehind(env, states, acts, k, (y: BufferedEvent) => HeldUntil(env.cfg, w, turn, y), it);
  }

  /** So once every post is past its time, one driver tick leaves nothing of any level held. */
  lemma AllFireAfterTheChanges(env: Env, w: World, turn: nat -> real, states: seq<Server>, acts: seq<Action>, k: nat)
    requires RunsFromStart(env, states, acts) && k < |acts| && Sensible(env.cfg, w)
    requires forall i :: 0 <= i < k ==> AllLived(w, states[i], acts[i]) && !Delays(env, w, turn, states[i], acts[i])
    requires acts[k].DriverTick?
    requires forall x :: x in states[k].accepted ==> HeldUntil(env.cfg, w, turn, x) <= acts[k].now
    ensures forall it :: it in states[k].accepted ==> it in FiredItems(states[k + 1].buf.fired)
  {
    hide Next, AllLived, Delays, Sensible, HeldUntil;
    forall it | it in states[k].accepted ensures it in FiredItems(states[k + 1].buf.fired) {
      var x := OverdueOnlyBehindNewer(env, w, turn, states, acts, k, it);
    }
  }
}
