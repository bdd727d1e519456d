/** Posts and replies under which nothing is released early across any number of changes of level on one map. The
    conditions are on what arrives: ticks, instants and readings. */
module HltvOrderly {
  import opened Wrappers
  import opened HltvSync
  import opened HltvDelayBuffer
  import opened HltvPipeline
  import opened HltvLaws
  import opened HltvBoundary
  import opened HltvAccuracy
  import opened HltvEpochs

  predicate SameMap(w: World, name: string) { name == "" || name == w.mapName }

  /** The levels are counted from that of the first post. */
  predicate FromFirst(w: World) { w.index(0) == 0 }

  /** The latest level among the first `n` posts: the one that is current when post `n` comes. */
  function Current(w: World, n: nat): nat {
    if n == 0 then 0
    else if Current(w, n - 1) < w.index(n - 1) then w.index(n - 1)
    else Current(w, n - 1)
  }

  /** Post `n` is the first of a level after the current one. */
  predicate Opens(w: World, n: nat) { w.index(n) > Current(w, n) }

  /** Post `n` is of a level before the current one. */
  predicate ComesLate(w: World, n: nat) { w.index(n) < Current(w, n) }

  function CurrentIn(w: World, s: Server): nat { Current(w, |s.accepted|) }

  function CurrentLevel(w: World, s: Server): Level { w.level(CurrentIn(w, s)) }

  /** The level that was current before the last change among the first `n` posts. */
  function Previous(w: World, n: nat): nat {
    if n == 0 then 0 else if Opens(w, n - 1) then Current(w, n - 1) else Previous(w, n - 1)
  }

  function PreviousIn(w: World, s: Server): nat { Previous(w, |s.accepted|) }

  lemma {:induction false} PreviousBelow(w: World, n: nat)
    ensures Previous(w, n) <= Current(w, n) && (Current(w, n) > 0 ==> Previous(w, n) < Current(w, n))
  {
    if n > 0 {
      PreviousBelow(w, n - 1);
    }
  }

  /** Nothing queued is of a level before the current one. */
  predicate OnlyCurrent(w: World, s: Server) { forall x :: x in s.buf.queue ==> IndexOf(w, x) == CurrentIn(w, s) }

  /** The current level had reached game time `t` when some accepted post arrived. */
  ghost predicate Reached(w: World, s: Server, t: real) {
    exists x :: x in s.accepted && t <= GameTime(CurrentLevel(w, s), x.enqueuedAt)
  }

  /** The first post of a level lies more than a threshold below the highest tick so far, and what is still queued
      either does too or lies no higher than the new level's own time. And if the level it follows followed one
      itself, some post of that one has been paired with a clock of it, or of a later one. */
  ghost predicate OpeningOk(w: World, s: Server, tick: real, now: real) {
    && s.sync.highestEventTick.Some? && s.sync.highestEventTick.value - tick > TICK_RESET_THRESHOLD_S
    && (s.buf.queue != [] ==>
          var top := NumericTick(s.buf.queue[|s.buf.queue| - 1]);
          top - tick > TICK_RESET_THRESHOLD_S || top <= GameTime(LevelOf(w, |s.accepted|), now))
    && (CurrentIn(w, s) > 0 ==>
          s.sync.lastEventClock.Some? && AccurateFrom(w, CurrentIn(w, s), s.sync.lastEventClock.value))
  }

  /** A late post of an earlier level: within two minutes of the boundary, near the final tick of the level before,
      above anything the current level can have reached, and not the first of its level. */
  ghost predicate LateOk(w: World, s: Server, tick: real, now: real) {
    && s.sync.lastBoundary.Some?
    && now - s.sync.lastBoundary.value.at <= STRAGGLER_WALL_WINDOW_MS
    && Abs(tick - s.sync.lastBoundary.value.preResetHighWater) <= STRAGGLER_TICK_WINDOW_S
    && tick > GameTime(CurrentLevel(w, s), now) + TICK_RESET_THRESHOLD_S + CurrentLevel(w, s).readLagSeconds
    && exists i: nat :: i < |s.accepted| && w.index(i) == w.index(|s.accepted|)
  }

  /** A post of the current level that would be taken for an earlier one's: within two minutes of the boundary, with
      no clock of the current level online, a jump past every tick so far that lands near the final tick of the
      level before. */
  ghost predicate Mistakable(w: World, s: Server, tick: real, now: real) {
    && s.sync.lastBoundary.Some?
    && now - s.sync.lastBoundary.value.at <= STRAGGLER_WALL_WINDOW_MS
    && (s.sync.highestEventTick.Some? ==> tick - s.sync.highestEventTick.value > TICK_RESET_THRESHOLD_S)
    && !(OnlineBasis(s.sync).Some? && Accurate(CurrentLevel(w, s), OnlineBasis(s.sync).value))
    && Abs(tick - s.sync.lastBoundary.value.preResetHighWater) <= STRAGGLER_TICK_WINDOW_S
  }

  /** A post of the first level need only come after it happened; those of later ones are told apart. */
  ghost predicate PostOk(w: World, s: Server, e: Event, now: real) {
    var n, c := |s.accepted|, CurrentIn(w, s);
    && e.tick.Some? && e.tick.value <= GameTime(LevelOf(w, n), now)
    && SameMap(w, e.mapName)
    && (forall x :: x in s.accepted ==> x.enqueuedAt <= now)
    && (Opens(w, n) ==> OpeningOk(w, s, e.tick.value, now))
    && (ComesLate(w, n) ==> LateOk(w, s, e.tick.value, now))
    && (w.index(n) == c > 0 ==>
          && e.tick.value >= GameTime(w.level(c), now) - TICK_RESET_THRESHOLD_S
          && !Mistakable(w, s, e.tick.value, now))
  }

  /** Some queued event of the current level, a later one than the first, is more than a threshold above
      `activeTime`. */
  ghost predicate StrandsCurrent(w: World, s: Server, activeTime: real) {
    exists it :: it in s.buf.queue && IndexOf(w, it) == CurrentIn(w, s) > 0 && Stranded(it, activeTime)
  }

  ghost predicate RescueSafe(w: World, s: Server) {
    s.sync.clock.Some? ==> !StrandsCurrent(w, s, s.sync.clock.value.basis.activeTime)
  }

  /** A reply read within the lag from the current level, and adopted before a queued post of it is 29 s past the
      reading; or one read from a later level, before its first post, that strands nothing of the current one
      unless that is the first. */
  ghost predicate ReplyOk(w: World, s: Server, status: RconStatus) {
    s.sync.inflight.Some? ==>
      && SameMap(w, status.mapName)
      && exists u, j: nat :: ReplyReads(w, s, status, u, j)
  }

  ghost predicate ReplyReads(w: World, s: Server, status: RconStatus, u: real, j: nat) {
    var c := CurrentIn(w, s);
    && c <= j && ReadIn(w.level(j), s, status, u)
    && if j == c then forall it :: it in s.buf.queue && IndexOf(w, it) == c > 0 ==> it.enqueuedAt <= u + 29000.0
       else !StrandsCurrent(w, s, status.activeTime)
  }

  ghost predicate Orderly(w: World, s: Server, a: Action) {
    match a
    case Deliver(e, now) => PostOk(w, s, e, now)
    case SampleOk(status) => ReplyOk(w, s, status)
    case SampleFail(message) => message == "" ==> RescueSafe(w, s)
    case Calibrate(offsetMs) => offsetMs == 0.0 && RescueSafe(w, s)
    case _ => true
  }

  /** Since the first change of level the clock and the queue are those of the current one. */
  ghost predicate Settled(w: World, s: Server) {
    && s.sync.lastBoundary.Some? && s.sync.highestEventTick.Some?
    && Reached(w, s, s.sync.highestEventTick.value)
    && !Behind(w, CurrentIn(w, s), OnlineBasis(s.sync))
    && forall it :: it in s.buf.queue ==> Reached(w, s, NumericTick(it))
  }

  /** The promoted basis is not behind any level before the current one that has had a post. */
  ghost predicate TailKept(w: World, n: nat, s: ServerSync) {
    forall i: nat :: i < n && 0 < w.index(i) < Current(w, n) ==>
      s.resetBasis.Some? && !Behind(w, w.index(i), s.resetBasis)
  }

  ghost predicate OrderInv(w: World, s: Server) {
    && (s.sync.clock.Some? ==> SameMap(w, s.sync.clock.value.mapName))
    && (!s.sync.lazyInited ==> s.sync.highestEventTick.None? && s.sync.lastBoundary.None?)
    && (forall it :: it in s.buf.queue ==> it.event.tick.Some? && it.arrival < |s.accepted|)
    && TailKept(w, |s.accepted|, s.sync)
    && (CurrentIn(w, s) > 0 ==> Settled(w, s))
  }

  lemma {:induction false} IndexBelowCurrent(w: World, i: nat, n: nat)
    requires i < n
    ensures w.index(i) <= Current(w, n)
    decreases n
  {
    if i < n - 1 {
      IndexBelowCurrent(w, i, n - 1);
    }
  }

  /** In the first level there is nothing earlier. */
  lemma {:induction false} FirstHasNoLater(w: World, n: nat, i: nat)
    requires Current(w, n) == 0 && i < n
    ensures w.index(i) == 0
  {
    IndexBelowCurrent(w, i, n);
  }

  // ---- What the service makes of an orderly post ----

  lemma ReachedByNow(w: World, s: Server, t: real, now: real)
    requires Reached(w, s, t) && forall x :: x in s.accepted ==> x.enqueuedAt <= now
    ensures t <= GameTime(CurrentLevel(w, s), now)
  {
  }

  /** After a boundary a post of the current level is a straggler only if it is mistakable; and, unless the clock
      is online and of a later level, exactly then. */
  lemma MistakenExactlyWhen(w: World, s: Server, tick: real, now: real)
    requires tick <= GameTime(CurrentLevel(w, s), now)
    ensures OldEpochTick(s.sync, tick, now) ==> Mistakable(w, s, tick, now)
    ensures OnlineBasis(s.sync).None? || Accurate(CurrentLevel(w, s), OnlineBasis(s.sync).value) ==>
              (OldEpochTick(s.sync, tick, now) <==> Mistakable(w, s, tick, now))
  {
  }

  /** An ended level that ran four minutes longer than the current one has when its posts begin is safe: no post of
      the current level can come near its final tick while the window is open. */
  lemma LongLevelIsSafe(w: World, s: Server, tick: real, now: real)
    requires s.sync.lastBoundary.Some? && tick <= GameTime(CurrentLevel(w, s), now)
    requires s.sync.lastBoundary.value.preResetHighWater
             > GameTime(CurrentLevel(w, s), s.sync.lastBoundary.value.at) + 240.0
    ensures !Mistakable(w, s, tick, now)
  {
  }

  lemma NoMapChange(w: World, s: Server, e: Event, now: real)
    requires OrderInv(w, s) && PostOk(w, s, e, now)
    ensures !MapChanged(s.sync, e)
  {
  }

  lemma PostFacts(w: World, s: Server, e: Event, now: real)
    requires PostOk(w, s, e, now)
    ensures e.tick.Some? && e.tick.value <= GameTime(LevelOf(w, |s.accepted|), now)
    ensures forall x :: x in s.accepted ==> x.enqueuedAt <= now
    ensures Opens(w, |s.accepted|) ==> OpeningOk(w, s, e.tick.value, now)
    ensures ComesLate(w, |s.accepted|) ==> LateOk(w, s, e.tick.value, now)
    ensures w.index(|s.accepted|) == CurrentIn(w, s) > 0 ==>
              && e.tick.value >= GameTime(CurrentLevel(w, s), now) - TICK_RESET_THRESHOLD_S
              && !Mistakable(w, s, e.tick.value, now)
  {
  }

  /** How an orderly post of the current level or an earlier one is judged after the first change of level. */
  lemma LaterVerdicts(cfg: Config, w: World, s: Server, e: Event, now: real)
    requires Sensible(cfg, w) && OrderInv(w, s) && PostOk(w, s, e, now)
    requires CurrentIn(w, s) > 0 && !Opens(w, |s.accepted|)
    ensures OldEpochTick(s.sync, e.tick.value, now) <==> ComesLate(w, |s.accepted|)
    ensures !ComesLate(w, |s.accepted|) ==> !TickReset(s.sync, e, now) && !TailFarAbove(s.buf.queue, e.tick.value)
  {
    hide PostOk, Accurate, AccurateFrom, Sensible, TailKept;
    PostFacts(w, s, e, now);
    var tick := e.tick.value;
    ReachedByNow(w, s, s.sync.highestEventTick.value, now);
    if ComesLate(w, |s.accepted|) {
      LateIsRecognised(cfg, w, s, tick, now);
    } else {
      MistakenExactlyWhen(w, s, tick, now);
      var q := s.buf.queue;
      if q != [] {
        assert q[|q| - 1] in q;
        ReachedByNow(w, s, NumericTick(q[|q| - 1]), now);
      }
    }
  }

  lemma LateIsRecognised(cfg: Config, w: World, s: Server, tick: real, now: real)
    requires Sensible(cfg, w) && Settled(w, s) && LateOk(w, s, tick, now)
    requires s.sync.highestEventTick.value <= GameTime(CurrentLevel(w, s), now)
    ensures OldEpochTick(s.sync, tick, now)
  {
    var c := CurrentIn(w, s);
    InTurn(cfg, w, c, c);
    if OnlineBasis(s.sync).Some? {
      var b := OnlineBasis(s.sync).value;
      var i: nat :| c <= i && Accurate(w.level(i), b);
      InTurn(cfg, w, c, i);
      hide Sensible, Reached;
      assert b.activeTime + (now - b.sampledAt) / 1000.0 <= GameTime(w.level(i), now) + w.level(i).readLagSeconds;
    }
  }

  lemma OpeningVerdicts(w: World, s: Server, e: Event, now: real)
    requires OrderInv(w, s) && PostOk(w, s, e, now) && Opens(w, |s.accepted|)
    ensures TickReset(s.sync, e, now) && !OldEpochTick(s.sync, e.tick.value, now)
  {
    NoMapChange(w, s, e, now);
  }

  /** Detection and enqueue judge an orderly post alike. */
  lemma SameVerdict(w: World, s: Server, e: Event, now: real)
    requires OrderInv(w, s) && PostOk(w, s, e, now)
    ensures OldEpochTick(OnIngestEvent(s.sync, e, now), e.tick.value, now) <==> OldEpochTick(s.sync, e.tick.value, now)
  {
    NoMapChange(w, s, e, now);
    if s.sync.lazyInited {
      DetectorsAgreeOnStragglers(s.sync, e, now);
    }
  }

  /** What detection makes of it. */
  lemma IngestVerdicts(cfg: Config, w: World, s: Server, e: Event, now: real)
    requires Sensible(cfg, w) && OrderInv(w, s) && PostOk(w, s, e, now)
    ensures
      var r, n := OnIngestEvent(s.sync, e, now), |s.accepted|;
      && r.lazyInited && (r.clock.Some? ==> SameMap(w, r.clock.value.mapName))
      && (Opens(w, n) ==>
            && r.lastBoundary == Some(Boundary(now, s.sync.highestEventTick.value)) && r.highestEventTick == e.tick
            && OnlineBasis(r).None? && r.lastEventClock == s.sync.lastEventClock
            && r.resetBasis == if s.sync.lastEventClock.Some? then s.sync.lastEventClock else s.sync.resetBasis)
      && (CurrentIn(w, s) > 0 && ComesLate(w, n) ==> r == s.sync)
      && (CurrentIn(w, s) > 0 && !Opens(w, n) ==>
            && r.lastBoundary == s.sync.lastBoundary && r.resetBasis == s.sync.resetBasis
            && OnlineBasis(r) == OnlineBasis(s.sync)
            && (r.lastEventClock == s.sync.lastEventClock || r.lastEventClock == OnlineBasis(s.sync))
            && (r.highestEventTick == s.sync.highestEventTick || r.highestEventTick == e.tick))
  {
    NoMapChange(w, s, e, now);
    if Opens(w, |s.accepted|) {
      OpeningVerdicts(w, s, e, now);
    } else if CurrentIn(w, s) > 0 {
      LaterVerdicts(cfg, w, s, e, now);
    }
    hide OldEpochTick, Accurate, AccurateFrom, Reached, Sensible, Mistakable, LateOk, GameTime, TailKept;
  }

  /** In the first level a post finds the service as it likes: late, it may even reset the tick clock. */
  lemma TailStaysKept(cfg: Config, w: World, s: Server, e: Event, now: real)
    requires Sensible(cfg, w) && FromFirst(w) && OrderInv(w, s) && PostOk(w, s, e, now)
    ensures TailKept(w, |s.accepted| + 1, OnIngestEvent(s.sync, e, now))
  {
    var n, c := |s.accepted|, CurrentIn(w, s);
    PostFacts(w, s, e, now);
    IngestVerdicts(cfg, w, s, e, now);
    var r := OnIngestEvent(s.sync, e, now);
    hide OnIngestEvent, PostOk, Settled, Sensible;
    forall i: nat | i < n + 1 && 0 < w.index(i) < Current(w, n + 1)
      ensures r.resetBasis.Some? && !Behind(w, w.index(i), r.resetBasis)
    {
      if Opens(w, n) {
        IndexBelowCurrent(w, i, n);
        if c > 0 {
          AccurateFromLess(w, w.index(i), c, r.resetBasis.value);
        }
      } else if i == n {
        var k: nat :| k < n && w.index(k) == w.index(n);
        assert !Behind(w, w.index(k), s.sync.resetBasis);
      }
    }
  }

  // ---- Orderly steps have no cause ----

  /** The basis of the old tail is not behind any queued event of a level before the current one. */
  lemma EarlierIsSafe(w: World, s: Server, sync: ServerSync, it: BufferedEvent)
    requires Described(w, sync) && TailKept(w, |s.accepted|, sync) && it.arrival < |s.accepted|
    requires IndexOf(w, it) < CurrentIn(w, s) || CurrentIn(w, s) == 0
    ensures !TooSoon(w, it, TailBasis(sync))
  {
    IndexBelowCurrent(w, it.arrival, |s.accepted|);
    TailIsDescribed(w, sync);
    if IndexOf(w, it) == 0 {
      NeverBehindFirst(w, TailBasis(sync));
    }
  }

  /** When a level opens, the basis promoted is not behind anything it evicts. */
  lemma EvictedIsSafe(cfg: Config, w: World, s: Server, e: Event, now: real, it: BufferedEvent)
    requires Sensible(cfg, w) && Described(w, s.sync) && OrderInv(w, s) && PostOk(w, s, e, now)
    requires Opens(w, |s.accepted|) && it in s.buf.queue
    ensures !TooSoon(w, it, TailBasis(OnIngestEvent(s.sync, e, now)))
  {
    var r := OnIngestEvent(s.sync, e, now);
    PostFacts(w, s, e, now);
    IngestVerdicts(cfg, w, s, e, now);
    IngestKeepsDescribed(w, s.sync, e, now);
    IndexBelowCurrent(w, it.arrival, |s.accepted|);
    hide OnIngestEvent, PostOk, Settled, Sensible, AccurateFrom;
    if CurrentIn(w, s) == 0 {
      TailIsDescribed(w, r);
      NeverBehindFirst(w, TailBasis(r));
    } else {
      AccurateFromLess(w, IndexOf(w, it), CurrentIn(w, s), r.resetBasis.value);
    }
  }

  lemma LatePostIsSafe(cfg: Config, w: World, s: Server, e: Event, now: real)
    requires Sensible(cfg, w) && Described(w, s.sync) && OrderInv(w, s) && PostOk(w, s, e, now)
    requires ComesLate(w, |s.accepted|)
    ensures !Behind(w, w.index(|s.accepted|), TailBasis(OnIngestEvent(s.sync, e, now)))
  {
    var n := |s.accepted|;
    PostFacts(w, s, e, now);
    IngestVerdicts(cfg, w, s, e, now);
    TailIsDescribed(w, s.sync);
    hide OnIngestEvent, PostOk, Settled, Sensible, AccurateFrom;
    if w.index(n) == 0 {
      NeverBehindFirst(w, TailBasis(s.sync));
    } else {
      var k: nat :| k < n && w.index(k) == w.index(n);
      assert !Behind(w, w.index(k), s.sync.resetBasis);
    }
  }

  lemma OrderlyPostHasNoCause(env: Env, w: World, s: Server, e: Event, now: real)
    requires Sensible(env.cfg, w) && FromFirst(w) && Described(w, s.sync) && OrderInv(w, s) && PostOk(w, s, e, now)
    ensures !DeliveryCause(env, w, s, e, now)
  {
    var n, seen, it := |s.accepted|, OnIngestEvent(s.sync, e, now), Numbered(env, s, e, now);
    SameVerdict(w, s, e, now);
    assert e.tick.Some? && IndexOf(w, it) == w.index(n);
    if Opens(w, n) {
      OpeningVerdicts(w, s, e, now);
      forall x | x in s.buf.queue ensures !TooSoon(w, x, TailBasis(seen)) {
        EvictedIsSafe(env.cfg, w, s, e, now, x);
      }
    } else if CurrentIn(w, s) == 0 {
      FirstPostIsSafe(w, s, e, now);
    } else {
      LaterVerdicts(env.cfg, w, s, e, now);
      if ComesLate(w, n) {
        LatePostIsSafe(env.cfg, w, s, e, now);
      }
    }
    hide OldEpochTick, OnIngestEvent, Described, Behind, TailBasis, PostOk, OrderInv, Sensible;
  }

  /** In the first level nothing is behind. */
  lemma FirstPostIsSafe(w: World, s: Server, e: Event, now: real)
    requires Described(w, s.sync) && OrderInv(w, s) && CurrentIn(w, s) == 0 && !Opens(w, |s.accepted|)
    ensures w.index(|s.accepted|) == 0 && !Behind(w, 0, TailBasis(OnIngestEvent(s.sync, e, now)))
    ensures forall x :: x in s.buf.queue ==> !TooSoon(w, x, TailBasis(OnIngestEvent(s.sync, e, now)))
  {
    var seen := OnIngestEvent(s.sync, e, now);
    IngestKeepsDescribed(w, s.sync, e, now);
    TailIsDescribed(w, seen);
    NeverBehindFirst(w, TailBasis(seen));
    hide OnIngestEvent, Settled, TailKept;
    forall x | x in s.buf.queue ensures !TooSoon(w, x, TailBasis(seen)) {
      FirstHasNoLater(w, |s.accepted|, x.arrival);
    }
  }

  /** An emission that strands nothing of the current level, once it is not the first, has no cause. */
  lemma EmissionHasNoCause(w: World, s: Server)
    requires Described(w, s.sync) && TailKept(w, |s.accepted|, s.sync)
    requires forall it :: it in s.buf.queue ==> it.arrival < |s.accepted|
    requires s.sync.clock.Some? && s.sync.clock.value.online && s.sync.clock.value.lastError == "" ==>
               RescueSafe(w, s)
    ensures !EmissionCause(w, s)
  {
    hide Described, TailKept, TooSoon, Stranded;
    if s.sync.clock.Some? && s.sync.clock.value.online && s.sync.clock.value.lastError == "" {
      forall x | x in s.buf.queue && Stranded(x, s.sync.clock.value.basis.activeTime)
        ensures !TooSoon(w, x, TailBasis(s.sync))
      {
        IndexBelowCurrent(w, x.arrival, |s.accepted|);
        EarlierIsSafe(w, s, s.sync, x);
      }
    }
  }

  lemma ReplyStrandsNothing(w: World, s: Server, status: RconStatus)
    requires Lifelike(w, s) && OrderInv(w, s) && ReplyOk(w, s, status) && s.sync.inflight.Some?
    ensures !StrandsCurrent(w, s, status.activeTime)
  {
    hide Accurate, Described, Settled, TailKept;
    var u, j: nat :| ReplyReads(w, s, status, u, j);
    if j == CurrentIn(w, s) {
      forall it | it in s.buf.queue && IndexOf(w, it) == j > 0 ensures !Stranded(it, status.activeTime) {
        assert ItemOk(w, it);
        assert NumericTick(it) <= GameTime(w.level(j), it.enqueuedAt) <= GameTime(w.level(j), u) + 29.0;
      }
    }
  }

  lemma ReplyKeepsUp(w: World, s: Server, status: RconStatus)
    requires Lifelike(w, s) && ReplyOk(w, s, status) && s.sync.inflight.Some?
    ensures AccurateFrom(w, CurrentIn(w, s), HltvSync.SampleOk(s.sync, status).clock.value.basis)
    ensures Worldly(w, s, SampleOk(status))
  {
    var u, j: nat :| ReplyReads(w, s, status, u, j);
    ReadingIsAccurate(w.level(j), s, status, u);
    hide ReadIn, Accurate;
  }

  lemma OrderlyHasNoCause(env: Env, w: World, s: Server, a: Action)
    requires Sensible(env.cfg, w) && FromFirst(w) && Lifelike(w, s) && OrderInv(w, s) && Orderly(w, s, a)
    ensures Worldly(w, s, a) && !Cause(env, w, s, a)
  {
    match a
    case Deliver(e, now) => OrderlyPostHasNoCause(env, w, s, e, now);
    case StartSample(_, _) =>
    case SampleOk(status) =>
      if s.sync.inflight.Some? {
        ReplyKeepsUp(w, s, status);
        ReplyStrandsNothing(w, s, status);
        ReplyKeepsDescribed(w, s, status);
        SampledHasNoCause(w, s, HltvSync.SampleOk(s.sync, status));
      }
    case SampleFail(message) => FailHasNoCause(env, w, s, message);
    case Calibrate(offsetMs) =>
      FailKeepsDescribed(env.cfg, w, s.sync, "");
      SampledHasNoCause(w, s, SetCalibration(s.sync, 0.0));
    case DriverTick(now) => DriverHasNoCause(env, w, s, now);
  }

  /** The emission after a sample, which changes the clock alone. */
  lemma SampledHasNoCause(w: World, s: Server, sync: ServerSync)
    requires OrderInv(w, s) && Described(w, sync)
    requires sync == s.sync.(clock := sync.clock, inflight := sync.inflight)
    requires sync.clock.Some? && sync.clock.value.online && sync.clock.value.lastError == "" ==>
               !StrandsCurrent(w, s, sync.clock.value.basis.activeTime)
    ensures !EmissionCause(w, s.(sync := sync))
  {
    hide Described, Settled, Stranded, Behind;
    EmissionHasNoCause(w, s.(sync := sync));
  }

  lemma FailHasNoCause(env: Env, w: World, s: Server, message: string)
    requires Described(w, s.sync) && OrderInv(w, s) && (message == "" ==> RescueSafe(w, s))
    ensures s.sync.inflight.Some? ==> !EmissionCause(w, s.(sync := HltvSync.SampleFail(env.cfg, s.sync, message)))
  {
    FailKeepsDescribed(env.cfg, w, s.sync, message);
    hide Described, OrderInv, StrandsCurrent, EmissionCause;
    if s.sync.inflight.Some? {
      SampledHasNoCause(w, s, HltvSync.SampleFail(env.cfg, s.sync, message));
    }
  }

  lemma DriverHasNoCause(env: Env, w: World, s: Server, now: real)
    requires Described(w, s.sync) && OrderInv(w, s)
    ensures !Cause(env, w, s, DriverTick(now))
  {
    var c := CurrentIn(w, s);
    NeverBehindFirst(w, OnlineBasis(s.sync));
    forall x | x in s.buf.queue ensures !TooSoon(w, x, OnlineBasis(s.sync)) {
      IndexBelowCurrent(w, x.arrival, |s.accepted|);
      if Behind(w, IndexOf(w, x), OnlineBasis(s.sync)) {
        BehindMore(w, IndexOf(w, x), c, OnlineBasis(s.sync));
      }
    }
    hide TooSoon, Due, Described, OrderInv;
  }

  // ---- Orderly steps keep order ----

  /** The queue's part of a delivery, by the verdicts. */
  lemma DeliverQueue(env: Env, s: Server, e: Event, now: real)
    requires e.tick.Some?
    requires OldEpochTick(OnIngestEvent(s.sync, e, now), e.tick.value, now) <==> OldEpochTick(s.sync, e.tick.value, now)
    ensures
      var r, it := DeliverTo(env, s, e, now).buf, Numbered(env, s, e, now);
      && r.fired == s.buf.fired
      && (if OldEpochTick(s.sync, e.tick.value, now) then r.queue == s.buf.queue
          else if TailFarAbove(s.buf.queue, e.tick.value) then r.queue == [it]
          else forall x :: x in r.queue <==> x in s.buf.queue || x == it)
  {
    var it, seen := Numbered(env, s, e, now), OnIngestEvent(s.sync, e, now);
    hide OldEpochTick, OnIngestEvent, DrainTail;
    InsertByTickMembers(s.buf.queue, it);
    DrainTailFrame(env.cfg, seen, s.buf, [it]);
    DrainTailFrame(env.cfg, seen, s.buf, s.buf.queue);
  }

  lemma TopOfQueue(q: seq<BufferedEvent>)
    requires QueueOrdered(q) && q != []
    ensures forall x :: x in q ==> NumericTick(x) <= NumericTick(q[|q| - 1])
  {
    forall x | x in q ensures NumericTick(x) <= NumericTick(q[|q| - 1]) {
      var i :| 0 <= i < |q| && q[i] == x;
      assert i < |q| - 1 ==> Before(q[i], q[|q| - 1]);
    }
  }

  /** What an orderly post leaves queued. */
  lemma EnqueueLeaves(env: Env, w: World, s: Server, e: Event, now: real)
    requires Sensible(env.cfg, w) && OrderInv(w, s) && PostOk(w, s, e, now) && QueueOrdered(s.buf.queue)
    ensures
      var q, it, n := DeliverTo(env, s, e, now).buf.queue, Numbered(env, s, e, now), |s.accepted|;
      && (forall x :: x in q ==> x == it || x in s.buf.queue)
      && (ComesLate(w, n) ==> q == s.buf.queue)
      && (Opens(w, n) ==> forall x :: x in q ==> NumericTick(x) <= GameTime(LevelOf(w, n), now))
      && (Opens(w, n) && TailFarAbove(s.buf.queue, e.tick.value) ==> q == [it])
      && (CurrentIn(w, s) > 0 && !Opens(w, n) && !ComesLate(w, n) ==>
            forall x :: x in q <==> x in s.buf.queue || x == it)
  {
    var n := |s.accepted|;
    PostFacts(w, s, e, now);
    SameVerdict(w, s, e, now);
    DeliverQueue(env, s, e, now);
    if Opens(w, n) {
      OpeningVerdicts(w, s, e, now);
      if s.buf.queue != [] {
        TopOfQueue(s.buf.queue);
      }
    } else if CurrentIn(w, s) > 0 {
      LaterVerdicts(env.cfg, w, s, e, now);
    }
    hide OldEpochTick, OnIngestEvent, DeliverTo, OrderInv, PostOk, QueueOrdered, GameTime, TickReset, Sensible,
         AccurateFrom;
  }

  lemma ReachedGrows(w: World, s: Server, r: Server, t: real)
    requires Reached(w, s, t) && s.accepted <= r.accepted && CurrentIn(w, s) == CurrentIn(w, r)
    ensures Reached(w, r, t)
  {
    var x :| x in s.accepted && t <= GameTime(CurrentLevel(w, s), x.enqueuedAt);
    assert x in r.accepted;
  }

  lemma DeliverKeepsOrder(env: Env, w: World, s: Server, e: Event, now: real)
    requires Sensible(env.cfg, w) && FromFirst(w) && OrderInv(w, s) && PostOk(w, s, e, now)
    requires QueueOrdered(s.buf.queue)
    ensures OrderInv(w, DeliverTo(env, s, e, now))
  {
    var it, r := Numbered(env, s, e, now), DeliverTo(env, s, e, now);
    assert e.tick.Some?;
    IngestVerdicts(env.cfg, w, s, e, now);
    TailStaysKept(env.cfg, w, s, e, now);
    EnqueueLeaves(env, w, s, e, now);
    DeliverAccepts(env, s, e, now);
    if CurrentIn(w, r) > 0 {
      DeliverSettles(env, w, s, e, now);
    }
    hide DeliverTo, OnIngestEvent, PostOk, Settled, TailKept, Sensible, QueueOrdered, Current, SameMap, FromFirst;
  }

  lemma DeliverSettles(env: Env, w: World, s: Server, e: Event, now: real)
    requires Sensible(env.cfg, w) && FromFirst(w) && OrderInv(w, s) && PostOk(w, s, e, now)
    requires QueueOrdered(s.buf.queue) && CurrentIn(w, DeliverTo(env, s, e, now)) > 0
    ensures Settled(w, DeliverTo(env, s, e, now))
  {
    var it, r, n := Numbered(env, s, e, now), DeliverTo(env, s, e, now), |s.accepted|;
    PostFacts(w, s, e, now);
    IngestVerdicts(env.cfg, w, s, e, now);
    EnqueueLeaves(env, w, s, e, now);
    DeliverAccepts(env, s, e, now);
    assert it in r.accepted && it.enqueuedAt == now && |r.accepted| == n + 1;
    hide DeliverTo, OnIngestEvent, PostOk, OpeningOk, LateOk, Sensible, QueueOrdered, AccurateFrom;
    if Opens(w, n) {
      assert CurrentIn(w, r) == w.index(n);
      forall t | t <= GameTime(CurrentLevel(w, r), now) ensures Reached(w, r, t) {}
    } else {
      assert CurrentIn(w, r) == CurrentIn(w, s);
      forall t | Reached(w, s, t) || (!ComesLate(w, n) && t <= GameTime(CurrentLevel(w, s), now))
        ensures Reached(w, r, t)
      {
        if Reached(w, s, t) {
          ReachedGrows(w, s, r, t);
        }
      }
    }
    hide Reached, GameTime;
  }

  /** A step that takes no post keeps order if it leaves the sync state in order and only thins the queue. */
  lemma OthersKeepOrder(w: World, s: Server, r: Server)
    requires OrderInv(w, s) && r.accepted == s.accepted
    requires r.sync == s.sync.(clock := r.sync.clock, inflight := r.sync.inflight)
    requires forall x :: x in r.buf.queue ==> x in s.buf.queue
    requires r.sync.clock.Some? ==> SameMap(w, r.sync.clock.value.mapName)
    requires CurrentIn(w, s) > 0 ==> !Behind(w, CurrentIn(w, s), OnlineBasis(r.sync))
    ensures OrderInv(w, r)
  {
    hide AccurateFrom;
    forall t | Reached(w, s, t) ensures Reached(w, r, t) {
      ReachedGrows(w, s, r, t);
    }
    hide Reached;
  }

  lemma StepKeepsOrder(env: Env, w: World, s: Server, a: Action)
    requires Sensible(env.cfg, w) && FromFirst(w) && Lifelike(w, s) && OrderInv(w, s) && Orderly(w, s, a)
    requires QueueOrdered(s.buf.queue)
    ensures OrderInv(w, Next(env, s, a))
  {
    hide DeliverTo, EmitClock, ReleaseDue, PostOk, ReplyReads, Accurate, AccurateFrom, RescueSafe, Sensible, TailKept;
    match a
    case Deliver(e, now) => DeliverKeepsOrder(env, w, s, e, now);
    case StartSample(_, _) => OthersKeepOrder(w, s, Next(env, s, a));
    case SampleOk(status) =>
      if s.sync.inflight.Some? {
        ReplyKeepsUp(w, s, status);
        EmitThins(env, s.(sync := HltvSync.SampleOk(s.sync, status)));
        OthersKeepOrder(w, s, Next(env, s, a));
      }
    case SampleFail(message) =>
      if s.sync.inflight.Some? {
        EmitThins(env, s.(sync := HltvSync.SampleFail(env.cfg, s.sync, message)));
        FailKeepsBasis(env.cfg, w, CurrentIn(w, s), s.sync, message);
        OthersKeepOrder(w, s, Next(env, s, a));
      }
    case Calibrate(offsetMs) =>
      EmitThins(env, s.(sync := SetCalibration(s.sync, offsetMs)));
      ZeroKeepsBasis(w, s.sync);
      OthersKeepOrder(w, s, Next(env, s, a));
    case DriverTick(now) =>
      DriverThins(env, s, now);
      OthersKeepOrder(w, s, Next(env, s, a));
  }

  lemma FailKeepsBasis(cfg: Config, w: World, j: nat, s: ServerSync, message: string)
    ensures !Behind(w, j, OnlineBasis(s)) ==> !Behind(w, j, OnlineBasis(HltvSync.SampleFail(cfg, s, message)))
  {
    hide AccurateFrom;
  }

  lemma ZeroKeepsBasis(w: World, s: ServerSync)
    requires Described(w, s)
    ensures OnlineBasis(SetCalibration(s, 0.0)) == OnlineBasis(s)
  {
  }

  lemma DriverThins(env: Env, s: Server, now: real)
    ensures
      var r := Next(env, s, DriverTick(now));
      r.sync == s.sync && r.accepted == s.accepted && forall x :: x in r.buf.queue ==> x in s.buf.queue
  {
  }

  // ---- Only events of ended levels are drained ----

  /** Past the first level, only events of levels before the current one have been drained. */
  ghost predicate DrainedOld(w: World, s: Server) {
    forall x :: x in s.drained ==> IndexOf(w, x.item) == 0 || IndexOf(w, x.item) < CurrentIn(w, s)
  }

  lemma RecordKeepsOld(env: Env, w: World, s: Server, moved: seq<BufferedEvent>, r: Server)
    requires DrainedOld(w, s) && r.drained == Record(env, s, moved) && CurrentIn(w, s) <= CurrentIn(w, r)
    requires forall x :: x in moved ==> IndexOf(w, x) == 0 || IndexOf(w, x) < CurrentIn(w, r)
    ensures DrainedOld(w, r)
  {
    hide ProjectReleaseAt, TailBasis, Current;
    var stamped := Stamp(env.cfg, moved, TailBasis(s.sync));
    forall x | x in r.drained ensures IndexOf(w, x.item) == 0 || IndexOf(w, x.item) < CurrentIn(w, r) {
      if x in stamped {
        var i :| 0 <= i < |stamped| && stamped[i] == x;
        assert moved[i] in moved;
      }
    }
  }

  /** What an orderly post moves is of an ended level. */
  lemma MovedIsOld(env: Env, w: World, s: Server, e: Event, now: real, x: BufferedEvent)
    requires Sensible(env.cfg, w) && FromFirst(w) && OrderInv(w, s) && PostOk(w, s, e, now)
    requires x in Moved(OnIngestEvent(s.sync, e, now), s.buf, Numbered(env, s, e, now), now)
    ensures IndexOf(w, x) == 0 || IndexOf(w, x) < CurrentIn(w, DeliverTo(env, s, e, now))
  {
    var it, n := Numbered(env, s, e, now), |s.accepted|;
    PostFacts(w, s, e, now);
    SameVerdict(w, s, e, now);
    DeliverAccepts(env, s, e, now);
    assert Current(w, n + 1) == if Opens(w, n) then w.index(n) else Current(w, n);
    if Opens(w, n) {
      OpeningVerdicts(w, s, e, now);
    } else if CurrentIn(w, s) > 0 {
      LaterVerdicts(env.cfg, w, s, e, now);
    }
    hide OldEpochTick, OnIngestEvent, PostOk, DeliverTo, Settled, TailKept, TickReset, Sensible;
    assert x == it || x in s.buf.queue;
    if x in s.buf.queue {
      IndexBelowCurrent(w, x.arrival, n);
    }
  }

  lemma DeliverDrainsOld(env: Env, w: World, s: Server, e: Event, now: real)
    requires Sensible(env.cfg, w) && FromFirst(w) && OrderInv(w, s) && PostOk(w, s, e, now) && DrainedOld(w, s)
    ensures DrainedOld(w, DeliverTo(env, s, e, now))
  {
    var it, seen := Numbered(env, s, e, now), s.(sync := OnIngestEvent(s.sync, e, now));
    var r, moved := DeliverTo(env, s, e, now), Moved(seen.sync, s.buf, it, now);
    DeliverAccepts(env, s, e, now);
    forall x | x in moved ensures IndexOf(w, x) == 0 || IndexOf(w, x) < CurrentIn(w, r) {
      MovedIsOld(env, w, s, e, now, x);
    }
    assert r.drained == Record(env, seen, moved);
    assert CurrentIn(w, s) <= CurrentIn(w, r);
    hide DeliverTo, OnIngestEvent, Moved, Record, OrderInv, PostOk;
    RecordKeepsOld(env, w, seen, moved, r);
  }

  lemma StepDrainsOld(env: Env, w: World, s: Server, a: Action)
    requires Sensible(env.cfg, w) && FromFirst(w) && Lifelike(w, s) && OrderInv(w, s) && Orderly(w, s, a)
    requires DrainedOld(w, s)
    ensures DrainedOld(w, Next(env, s, a))
  {
    hide DeliverTo, EmitClock, PostOk, ReplyReads, Described, Settled, TailKept, StrandsCurrent, Sensible;
    match a
    case Deliver(e, now) => DeliverDrainsOld(env, w, s, e, now);
    case StartSample(_, _) =>
    case SampleOk(status) =>
      if s.sync.inflight.Some? {
        ReplyStrandsNothing(w, s, status);
        SampledDrainsOld(env, w, s, HltvSync.SampleOk(s.sync, status));
      }
    case SampleFail(message) =>
      if s.sync.inflight.Some? {
        SampledDrainsOld(env, w, s, HltvSync.SampleFail(env.cfg, s.sync, message));
      }
    case Calibrate(offsetMs) => SampledDrainsOld(env, w, s, SetCalibration(s.sync, 0.0));
    case DriverTick(now) =>
  }

  lemma SampledDrainsOld(env: Env, w: World, s: Server, sync: ServerSync)
    requires OrderInv(w, s) && DrainedOld(w, s)
    requires sync.clock.Some? && sync.clock.value.online && sync.clock.value.lastError == "" ==>
               !StrandsCurrent(w, s, sync.clock.value.basis.activeTime)
    ensures DrainedOld(w, EmitClock(env, s.(sync := sync)))
  {
    var t := s.(sync := sync);
    hide Settled, TailKept, ReleaseStranded, Stamp, TailBasis;
    if EmitClock(env, t) != t {
      var moved := Sift(t.buf.queue, t.sync.clock.value.basis.activeTime, true);
      forall x | x in moved ensures IndexOf(w, x) == 0 || IndexOf(w, x) < CurrentIn(w, s) {
        IndexBelowCurrent(w, x.arrival, |s.accepted|);
      }
      RecordKeepsOld(env, w, t, moved, EmitClock(env, t));
    }
  }

  lemma {:induction false} RunIsOrderly(env: Env, w: World, states: seq<Server>, acts: seq<Action>, k: nat)
    requires RunsFromStart(env, states, acts) && k < |states| && Sensible(env.cfg, w) && FromFirst(w)
    requires forall i :: 0 <= i < k ==> Orderly(w, states[i], acts[i])
    ensures OrderInv(w, states[k]) && CleanInv(w, states[k]) && DrainedOld(w, states[k])
    ensures forall i :: 0 <= i < k ==> Worldly(w, states[i], acts[i]) && !Cause(env, w, states[i], acts[i])
  {
    hide Next, Orderly, Worldly, Cause, FromFirst, DrainOk, FireOk;
    if k > 0 {
      RunIsOrderly(env, w, states, acts, k - 1);
      RunKeepsQueue(env, states, acts, k - 1);
      hide OrderInv, CleanInv, DrainedOld, Sensible;
      var s, a := states[k - 1], acts[k - 1];
      CleanIsLifelike(w, s);
      OrderlyHasNoCause(env, w, s, a);
      StepKeepsOrder(env, w, s, a);
      StepIsClean(env, w, s, a);
      StepDrainsOld(env, w, s, a);
    } else {
      StartIsOrderly(w);
    }
  }

  lemma CleanIsLifelike(w: World, s: Server)
    requires CleanInv(w, s)
    ensures Lifelike(w, s)
  {
  }

  lemma StartIsOrderly(w: World)
    ensures OrderInv(w, INIT) && CleanInv(w, INIT)
  {
  }

  /** Across any number of changes of level on one map nothing fires before viewers reach it, less the read lag,
      whichever level it is of and whichever queue released it, nothing is waiting to, and nothing of a level after
      the first has gone through the drain before the next level's first post. */
  lemma NeverEarlyAcrossBoundaries(env: Env, w: World, states: seq<Server>, acts: seq<Action>, k: nat)
    requires RunsFromStart(env, states, acts) && k < |states| && Sensible(env.cfg, w) && FromFirst(w)
    requires forall i :: 0 <= i < k ==> Orderly(w, states[i], acts[i])
    ensures forall f :: f in states[k].buf.fired ==> NotEarly(LevelOf(w, f.item.arrival), f.item, f.at)
    ensures forall x :: x in states[k].buf.draining ==>
              NotEarly(LevelOf(w, x.item.arrival), x.item, x.releaseAt)
    ensures DrainedOld(w, states[k])
  {
    hide Next, Orderly, Cause, Worldly, NotEarly, Sensible, FromFirst;
    RunIsOrderly(env, w, states, acts, k);
    forall f | f in states[k].buf.fired ensures NotEarly(LevelOf(w, f.item.arrival), f.item, f.at) {
      assert FireOk(w, f);
    }
    forall x | x in states[k].buf.draining ensures NotEarly(LevelOf(w, x.item.arrival), x.item, x.releaseAt) {
      assert DrainOk(w, x);
    }
  }
}
