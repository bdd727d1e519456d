/** Where the buffer puts each event and when it lets it go, step by step, with the windows, thresholds and instants
    written out in seconds and milliseconds. */
module HltvRouting {
  import opened Wrappers
  import opened HltvSync
  import opened HltvDelayBuffer
  import opened HltvPipeline
  import opened HltvLaws
  import opened HltvHistory

  /** A post without a tick counts as tick 0. */
  function TickOf(it: BufferedEvent): real { if it.event.tick.Some? then it.event.tick.value else 0.0 }

  /** The board lag, in milliseconds, of the three events a full-screen board comes with, and of no other. */
  function LagOf(cfg: Config, it: BufferedEvent): real {
    if it.event.name in {"player_stats_summary", "half_end", "match_phase"} then cfg.boardReleaseLagSeconds * 1000.0
    else 0.0
  }

  /** The basis of the boundary, or without one that of the last event. */
  function BasisAfter(s: ServerSync): Option<ClockBasis> {
    if s.resetBasis.Some? then s.resetBasis else s.lastEventClock
  }

  /** Does a clock of basis `b` show the tick at instant `t`? */
  predicate Shows(b: ClockBasis, tick: real, t: real) {
    b.activeTime - b.delaySeconds + (t - b.sampledAt + b.calibrationOffsetMs) / 1000.0 >= tick
  }

  /** `at` is the first instant the basis shows the event's tick, plus the board lag; a fixed delay past its arrival
      without a basis. */
  ghost predicate RightInstant(cfg: Config, it: BufferedEvent, basis: Option<ClockBasis>, at: real) {
    match basis
    case None => at == it.enqueuedAt + cfg.fallbackDelaySeconds * 1000.0 + LagOf(cfg, it)
    case Some(b) => forall t :: Shows(b, TickOf(it), t) <==> t >= at - LagOf(cfg, it)
  }

  ghost predicate RightStamps(
      cfg: Config, basis: Option<ClockBasis>, moved: seq<BufferedEvent>, stamped: seq<DrainItem>)
  {
    |stamped| == |moved| && forall i :: 0 <= i < |moved| ==>
      stamped[i].item == moved[i] && RightInstant(cfg, moved[i], basis, stamped[i].releaseAt)
  }

  lemma ProjectionIsRight(cfg: Config, it: BufferedEvent, basis: Option<ClockBasis>)
    ensures RightInstant(cfg, it, basis, ProjectReleaseAt(cfg, it, basis))
  {
  }

  lemma StampIsRight(cfg: Config, moved: seq<BufferedEvent>, basis: Option<ClockBasis>)
    ensures RightStamps(cfg, basis, moved, Stamp(cfg, moved, basis))
  {
    hide ProjectReleaseAt, RightInstant;
    forall it {
      ProjectionIsRight(cfg, it, basis);
    }
  }

  /** A step sends exactly `moved` to the drain, in order in the ledger, each stamped with its right instant. */
  ghost predicate StampedRight(env: Env, s: Server, r: Server, moved: seq<BufferedEvent>) {
    && s.drained <= r.drained
    && multiset(r.buf.draining) == multiset(s.buf.draining) + multiset(r.drained[|s.drained|..])
    && RightStamps(env.cfg, BasisAfter(r.sync), moved, r.drained[|s.drained|..])
  }

  lemma TailIsRight(env: Env, s: Server, t: Server, r: Server, moved: seq<BufferedEvent>)
    requires t.drained == s.drained && t.buf.draining == s.buf.draining && r.sync == t.sync
    requires r.drained == Record(env, t, moved)
    requires r.buf.draining == DrainTail(env.cfg, t.sync, t.buf, moved).draining
    ensures StampedRight(env, s, r, moved)
  {
    DrainTailHolds(env.cfg, t.sync, t.buf, moved);
    StampIsRight(env.cfg, moved, TailBasis(t.sync));
    hide RightStamps, Stamp, DrainTail;
    assert r.drained[|s.drained|..] == Stamp(env.cfg, moved, TailBasis(t.sync));
  }

  /** A post of the ended level goes to the drain alone and the queue stays; one more than 30 s below the last queued
      tick sends the whole queue to the drain, in order, and is queued alone; any other joins the queue, and nothing
      is drained. Nothing fires. */
  lemma PostGoesWhere(env: Env, s: Server, e: Event, now: real)
    ensures
      var r, it := Next(env, s, Deliver(e, now)), BufferedEvent(env.name, e, now, |s.accepted|);
      var q := s.buf.queue;
      && r.accepted == s.accepted + [it] && r.buf.fired == s.buf.fired
      && if OfEndedLevel(r.sync, TickOf(it), now) then r.buf.queue == q && StampedRight(env, s, r, [it])
         else if q != [] && TickOf(q[|q| - 1]) > TickOf(it) + 30.0 then
           r.buf.queue == [it] && StampedRight(env, s, r, q)
         else multiset(r.buf.queue) == multiset(q) + multiset{it} && StampedRight(env, s, r, [])
  {
    var seen, it := s.(sync := OnIngestEvent(s.sync, e, now)), Numbered(env, s, e, now);
    var r, q := Next(env, s, Deliver(e, now)), s.buf.queue;
    DeliverMoves(env, s, e, now);
    DeliverRecords(env, s, e, now);
    SameTail(seen.sync, it, q, now);
    hide Next, DeliverTo, OnIngestEvent, OldEpochTick, OfEndedLevel, StampedRight, InsertByTick, Record, DrainTail,
         Moved, TailFarAbove, TickOf, NumericTick;
    InsertByTickHolds(q, it);
    if OldEpochTick(seen.sync, TickOf(it), now) {
      TailIsRight(env, s, seen, r, [it]);
    } else if TailFarAbove(q, TickOf(it)) {
      TailIsRight(env, s, seen, r, q);
    } else {
      NoneMove(env, seen);
      TailIsRight(env, s, seen, r, []);
    }
  }

  lemma DeliverRecords(env: Env, s: Server, e: Event, now: real)
    ensures
      var seen, it := s.(sync := OnIngestEvent(s.sync, e, now)), Numbered(env, s, e, now);
      var r := Next(env, s, Deliver(e, now));
      && r == DeliverTo(env, s, e, now) && r.sync == seen.sync && r.accepted == s.accepted + [it]
      && r.drained == Record(env, seen, if OldEpochTick(seen.sync, NumericTick(it), now) then [it]
                                        else if TailFarAbove(s.buf.queue, NumericTick(it)) then s.buf.queue else [])
  {
    hide OnIngestEvent, OldEpochTick, Enqueue, Record;
  }

  lemma SameTail(s: ServerSync, it: BufferedEvent, q: seq<BufferedEvent>, now: real)
    ensures TickOf(it) == NumericTick(it)
    ensures OldEpochTick(s, TickOf(it), now) <==> OfEndedLevel(s, TickOf(it), now)
    ensures TailFarAbove(q, TickOf(it)) <==> q != [] && TickOf(q[|q| - 1]) > TickOf(it) + 30.0
  {
  }

  lemma NoneMove(env: Env, s: Server)
    ensures DrainTail(env.cfg, s.sync, s.buf, []) == s.buf
  {
  }

  /** In order, and exactly those of `q` that `keep` says. */
  function Kept(q: seq<BufferedEvent>, keep: BufferedEvent -> bool): seq<BufferedEvent> {
    if q == [] then []
    else Kept(q[..|q| - 1], keep) + if keep(q[|q| - 1]) then [q[|q| - 1]] else []
  }

  lemma {:induction false} SiftKeeps(q: seq<BufferedEvent>, activeTime: real, wanted: bool)
    ensures Sift(q, activeTime, wanted) == Kept(q, (x: BufferedEvent) => (TickOf(x) > activeTime + 30.0) == wanted)
  {
    if q != [] {
      SiftKeeps(q[..|q| - 1], activeTime, wanted);
    }
  }

  /** Whether the step emits the clock: a reply, a failure, or a calibration. */
  predicate Emits(s: Server, a: Action) { HltvHistory.Completes(s, a) || a.Calibrate? }

  /** An emission of an online clock without error drains, in order, exactly the queued events more than 30 s above
      the clock's game time; any other step that is neither a post nor a driver tick moves nothing. */
  lemma EmissionStrandsExactly(env: Env, s: Server, a: Action)
    requires !a.Deliver? && !a.DriverTick?
    ensures
      var r := Next(env, s, a);
      && r.accepted == s.accepted && r.buf.fired == s.buf.fired
      && if Emits(s, a) && r.sync.clock.Some? && r.sync.clock.value.online && r.sync.clock.value.lastError == "" then
           var t := r.sync.clock.value.basis.activeTime;
           && r.buf.queue == Kept(s.buf.queue, (x: BufferedEvent) => (TickOf(x) > t + 30.0) == false)
           && StampedRight(env, s, r, Kept(s.buf.queue, (x: BufferedEvent) => (TickOf(x) > t + 30.0) == true))
         else r.buf == s.buf && r.drained == s.drained
  {
    var r := Next(env, s, a);
    var t := s.(sync := r.sync);
    OthersKeepPosts(env, s, a);
    EmitsClock(env, s, a);
    hide Next, StampedRight, Kept;
    if Emits(s, a) && r.sync.clock.Some? && r.sync.clock.value.online && r.sync.clock.value.lastError == "" {
      EmitStrands(env, s, t);
    }
  }

  lemma EmitsClock(env: Env, s: Server, a: Action)
    requires !a.Deliver? && !a.DriverTick?
    ensures
      var r := Next(env, s, a);
      if Emits(s, a) then r == EmitClock(env, s.(sync := r.sync)) else r.buf == s.buf && r.drained == s.drained
  {
    hide ReleaseStranded, Record, CanCoast, Sift;
  }

  lemma EmitStrands(env: Env, s: Server, t: Server)
    requires t == s.(sync := t.sync)
    requires t.sync.clock.Some? && t.sync.clock.value.online && t.sync.clock.value.lastError == ""
    ensures
      var r, at := EmitClock(env, t), t.sync.clock.value.basis.activeTime;
      && r.buf.fired == s.buf.fired
      && r.buf.queue == Kept(s.buf.queue, (x: BufferedEvent) => (TickOf(x) > at + 30.0) == false)
      && StampedRight(env, s, r, Kept(s.buf.queue, (x: BufferedEvent) => (TickOf(x) > at + 30.0) == true))
  {
    var r, at := EmitClock(env, t), t.sync.clock.value.basis.activeTime;
    var stranded, kept := Sift(s.buf.queue, at, true), t.buf.(queue := Sift(s.buf.queue, at, false));
    SiftKeeps(s.buf.queue, at, true);
    SiftKeeps(s.buf.queue, at, false);
    hide Sift, Kept, StampedRight, Record;
    DrainTailFrame(env.cfg, t.sync, kept, stranded);
    assert DrainTail(env.cfg, t.sync, kept, stranded).draining == DrainTail(env.cfg, t.sync, t.buf, stranded).draining;
    hide DrainTail;
    TailIsRight(env, s, t, r, stranded);
  }

  // ---- Driver ticks ----

  /** A queued event's turn by the live clock, or by the fixed delay without one. */
  predicate HasTurn(cfg: Config, s: ServerSync, it: BufferedEvent, now: real) {
    if s.clock.Some? && s.clock.value.online then Shows(s.clock.value.basis, TickOf(it), now)
    else now >= it.enqueuedAt + cfg.fallbackDelaySeconds * 1000.0
  }

  lemma TurnIsDue(cfg: Config, s: ServerSync, it: BufferedEvent, now: real)
    ensures HasTurn(cfg, s, it, now) <==> Due(cfg, s, it, now)
  {
  }

  /** The longest prefix of a drain whose instants have passed; the longest prefix of a queue that has its turn. */
  ghost predicate Passed(d: seq<DrainItem>, n: nat, now: real) {
    n <= |d| && (forall i :: 0 <= i < n ==> d[i].releaseAt <= now) && (n < |d| ==> d[n].releaseAt > now)
  }

  ghost predicate Ready(cfg: Config, s: ServerSync, q: seq<BufferedEvent>, m: nat, now: real) {
    m <= |q| && (forall i :: 0 <= i < m ==> HasTurn(cfg, s, q[i], now)) && (m < |q| ==> !HasTurn(cfg, s, q[m], now))
  }

  /** A driver tick fires, in order, the drain's events up to the first whose instant has not come, and then, if that
      empties the drain, the queue's up to the first that does not have its turn; each fires once, at this instant, and
      nothing else changes. */
  lemma TickFiresExactly(env: Env, s: Server, now: real) returns (n: nat, m: nat)
    ensures
      var r, d, q := Next(env, s, DriverTick(now)), s.buf.draining, s.buf.queue;
      && r.sync == s.sync && r.accepted == s.accepted && r.drained == s.drained
      && Passed(d, n, now) && r.buf.draining == d[n..]
      && (if n < |d| then m == 0 else Ready(env.cfg, s.sync, q, m, now)) && m <= |q| && r.buf.queue == q[m..]
      && |r.buf.fired| == |s.buf.fired| + n + m && s.buf.fired <= r.buf.fired
      && (forall i :: 0 <= i < n ==> r.buf.fired[|s.buf.fired| + i] == Fired(d[i].item, now, Some(d[i].releaseAt)))
      && (forall i :: 0 <= i < m ==> r.buf.fired[|s.buf.fired| + n + i] == Fired(q[i], now, None))
  {
    n := DueCount(s.buf.draining, now);
    m := if n < |s.buf.draining| then 0 else ReadyCount(env.cfg, s.sync, s.buf.queue, now);
    forall it {
      TurnIsDue(env.cfg, s.sync, it, now);
    }
    hide Due, HasTurn;
    assert s.buf.queue[0..] == s.buf.queue;
  }
}
