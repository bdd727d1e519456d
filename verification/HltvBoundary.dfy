/** Release instants: an old level's tail plays out on the clock it was recorded under, whichever
    path took it to the drain, and nothing a fresh sample leaves queued is ever stuck. */
module HltvBoundary {
  import opened Wrappers
  import opened HltvSync
  import opened HltvDelayBuffer
  import opened HltvPipeline
  import opened HltvLaws

  // ---- The drain's instants do not depend on the path ----

  /** A step after the last ordinary event of a level and before its end is noticed: samples,
      failures, recalibrations, driver ticks, and deliveries without a tick or judged stragglers. */
  ghost predicate Quiet(s: Server, a: Action) {
    a.Deliver? ==>
      && s.sync.lazyInited && !MapChanged(s.sync, a.event)
      && (a.event.tick.Some? ==> OldEpochTick(s.sync, a.event.tick.value, a.now))
  }

  ghost predicate Detects(s: Server, a: Action) {
    a.Deliver? && TickReset(s.sync, a.event, a.now)
  }

  /** A step of the next level's life that is not itself a boundary. */
  ghost predicate NoBoundary(s: Server, a: Action) {
    a.Deliver? ==> s.sync.lazyInited && !MapChanged(s.sync, a.event) && !TickReset(s.sync, a.event, a.now)
  }

  /** From `from` no ordinary event arrives until `detect` notices a same-map boundary, and no
      further boundary is noticed before `till`. */
  ghost predicate FirstBoundary(states: seq<Server>, acts: seq<Action>, from: nat, detect: nat, till: nat)
    requires |states| == |acts| + 1
  {
    && from <= detect < till <= |acts|
    && states[from].sync.lazyInited && states[from].sync.resetBasis.None?
    && (forall k :: from <= k < detect ==> Quiet(states[k], acts[k]))
    && Detects(states[detect], acts[detect])
    && (forall k :: detect < k < till ==> NoBoundary(states[k], acts[k]))
  }

  lemma BoundaryIsOrdered(states: seq<Server>, acts: seq<Action>, from: nat, detect: nat, till: nat)
    requires |states| == |acts| + 1 && FirstBoundary(states, acts, from, detect, till)
    ensures from < till <= |acts|
  {
  }

  lemma QuietKeepsBasis(env: Env, s: Server, a: Action)
    requires Quiet(s, a) && s.sync.lazyInited
    ensures var r := Next(env, s, a).sync;
      r.lazyInited && r.resetBasis == s.sync.resetBasis && r.lastEventClock == s.sync.lastEventClock
  {
    hide Enqueue, ReleaseStranded, ReleaseDue;
  }

  lemma DetectionPromotes(env: Env, s: Server, a: Action)
    requires Detects(s, a)
    ensures var r := Next(env, s, a).sync;
      r.lazyInited && r.resetBasis == if s.sync.lastEventClock.Some? then s.sync.lastEventClock else s.sync.resetBasis
  {
    hide Enqueue, OldEpochTick;
  }

  lemma NoBoundaryKeepsBasis(env: Env, s: Server, a: Action)
    requires NoBoundary(s, a) && s.sync.lazyInited
    ensures Next(env, s, a).sync.lazyInited && Next(env, s, a).sync.resetBasis == s.sync.resetBasis
  {
    hide Enqueue, ReleaseStranded, ReleaseDue, OldEpochTick;
  }

  /** Every event a step moves to the drain is stamped off the tail basis the step leaves behind. */
  lemma NewDrainsUseTailBasis(env: Env, s: Server, a: Action)
    ensures var r := Next(env, s, a);
      && |s.drained| <= |r.drained| && r.drained[..|s.drained|] == s.drained
      && forall i :: |s.drained| <= i < |r.drained| ==>
           r.drained[i].releaseAt == ProjectReleaseAt(env.cfg, r.drained[i].item, TailBasis(r.sync))
  {
    hide Enqueue, ReleaseStranded, ReleaseDue, OnIngestEvent, ProjectReleaseAt, Moved, TailBasis, Sift;
  }

  lemma {:induction false} BasisAlong(env: Env, states: seq<Server>, acts: seq<Action>,
                                      from: nat, detect: nat, till: nat, k: nat)
    requires Runs(env, states, acts) && FirstBoundary(states, acts, from, detect, till)
    requires states[from].sync.lastEventClock.Some? && from <= k <= till
    ensures states[k].sync.lazyInited
    ensures k <= detect ==>
      states[k].sync.resetBasis.None? && states[k].sync.lastEventClock == states[from].sync.lastEventClock
    ensures k > detect ==> states[k].sync.resetBasis == states[from].sync.lastEventClock
  {
    hide Next;
    if k > from {
      BasisAlong(env, states, acts, from, detect, till, k - 1);
      var s, a := states[k - 1], acts[k - 1];
      if k - 1 < detect {
        QuietKeepsBasis(env, s, a);
      } else if k - 1 == detect {
        DetectionPromotes(env, s, a);
      } else {
        NoBoundaryKeepsBasis(env, s, a);
      }
    }
  }

  /** Solving the broadcast clock for the instant it reaches an event's tick. */
  lemma ProjectionIsFirstInstant(cfg: Config, it: BufferedEvent, b: ClockBasis)
    requires !IsBoardEvent(it.event)
    ensures forall now :: ProjectReleaseAt(cfg, it, Some(b)) <= now <==> NumericTick(it) <= BroadcastNow(b, now)
  {
  }

  /** At a first same-map boundary every event that reaches the drain, be it by the reset at
      enqueue, by a rescue before detection or as a late straggler, gets the instant projected off
      the clock of the last event before the boundary, whatever samples landed in between. For an
      event that is not a board's this is the first instant at which that clock shows its tick. */
  lemma {:induction false} DrainInstantIsPathIndependent(
      env: Env, states: seq<Server>, acts: seq<Action>, from: nat, detect: nat, till: nat, i: nat)
    requires Runs(env, states, acts) && FirstBoundary(states, acts, from, detect, till)
    requires states[from].sync.lastEventClock.Some?
    requires |states[from].drained| <= i < |states[till].drained|
    ensures var snapshot := states[from].sync.lastEventClock;
            var x := states[till].drained[i];
      && x.releaseAt == ProjectReleaseAt(env.cfg, x.item, snapshot)
      && (!IsBoardEvent(x.item.event) ==>
            forall now :: x.releaseAt <= now <==> NumericTick(x.item) <= BroadcastNow(snapshot.value, now))
  {
    hide Next, ProjectReleaseAt, BroadcastNow, IsBoardEvent, FirstBoundary, NumericTick;
    BoundaryIsOrdered(states, acts, from, detect, till);
    var at := DrainedDuring(env, states, acts, from, till, i);
    BasisAlong(env, states, acts, from, detect, till, at + 1);
    var x := states[till].drained[i];
    if !IsBoardEvent(x.item.event) {
      ProjectionIsFirstInstant(env.cfg, x.item, states[from].sync.lastEventClock.value);
    }
  }

  /** The step that moved the i-th drained event. */
  lemma {:induction false} DrainedDuring(env: Env, states: seq<Server>, acts: seq<Action>, from: nat, till: nat, i: nat)
    returns (at: nat)
    requires Runs(env, states, acts) && from <= till < |states|
    requires |states[from].drained| <= i < |states[till].drained|
    ensures from <= at < till && |states[at].drained| <= i < |states[at + 1].drained|
    ensures states[till].drained[i].releaseAt
         == ProjectReleaseAt(env.cfg, states[till].drained[i].item, TailBasis(states[at + 1].sync))
  {
    hide Next, ProjectReleaseAt, TailBasis;
    var s, a := states[till - 1], acts[till - 1];
    NewDrainsUseTailBasis(env, s, a);
    if i < |s.drained| {
      at := DrainedDuring(env, states, acts, from, till - 1, i);
      assert states[till].drained[i] == states[till].drained[..|s.drained|][i];
    } else {
      at := till - 1;
    }
  }

  /** The snapshot is what makes the path not matter. Without one, some sample and some ordinary
      event of the next level change the instant an old event would be given. */
  lemma PathMattersWithoutSnapshot(cfg: Config, s: ServerSync, e: Event, now: real, it: BufferedEvent)
    returns (status: RconStatus, next: Event)
    requires TickReset(s, e, now) && s.resetBasis.None? && s.lastEventClock.None?
    ensures var atReset := OnIngestEvent(s, e, now);
            var sampled := HltvSync.SampleOk(atReset, status);
            var later := OnIngestEvent(sampled, next, now);
      && !MapChanged(sampled, next) && !TickReset(sampled, next, now)
      && ProjectReleaseAt(cfg, it, TailBasis(later)) != ProjectReleaseAt(cfg, it, TailBasis(atReset))
  {
    var atReset := OnIngestEvent(s, e, now);
    next := e.(mapName := "");
    status := RconStatus(0.0, 0.0, "");
    if ProjectReleaseAt(cfg, it, TailBasis(OnIngestEvent(HltvSync.SampleOk(atReset, status), next, now)))
       == ProjectReleaseAt(cfg, it, TailBasis(atReset)) {
      status := RconStatus(0.0, 1.0, "");
    }
  }

  // ---- Nothing is stuck ----

  /** The instant a queued event falls due under the clock as it stands. */
  function DueAt(cfg: Config, sync: ServerSync, it: BufferedEvent): real {
    if sync.clock.Some? && sync.clock.value.online then
      var b := sync.clock.value.basis;
      b.sampledAt + (NumericTick(it) - b.activeTime + b.delaySeconds) * 1000.0 - b.calibrationOffsetMs
    else
      it.enqueuedAt + cfg.fallbackDelaySeconds * 1000.0
  }

  lemma DueFromThenOn(cfg: Config, sync: ServerSync, it: BufferedEvent, now: real)
    ensures Due(cfg, sync, it, now) <==> DueAt(cfg, sync, it) <= now
  {
  }

  /** A driver tick leaves nothing in the drain that is due; and once everything held is due, it
      leaves nothing at all. */
  lemma DriverTickReleases(env: Env, s: Server, now: real)
    requires QueueInv(s)
    ensures var r := Next(env, s, DriverTick(now)).buf;
      && (forall x :: x in r.draining ==> now < x.releaseAt)
      && ((forall x :: x in s.buf.draining ==> x.releaseAt <= now)
          && (forall it :: it in s.buf.queue ==> DueAt(env.cfg, s.sync, it) <= now)
          ==> r.draining == [] && r.queue == [])
  {
    var n := DueCount(s.buf.draining, now);
    var r := Next(env, s, DriverTick(now)).buf;
    assert r.draining == s.buf.draining[n..];
    if n < |s.buf.draining| {
      assert s.buf.draining[n] in s.buf.draining;
    }
    if forall it :: it in s.buf.queue ==> DueAt(env.cfg, s.sync, it) <= now {
      var m := ReadyCount(env.cfg, s.sync, s.buf.queue, now);
      if m < |s.buf.queue| {
        DueFromThenOn(env.cfg, s.sync, s.buf.queue[m], now);
      }
    }
  }

  /** With the drain empty, a driver tick leaves nothing queued that is due by an online clock. */
  lemma OnlineDriverTickFires(env: Env, s: Server, now: real, it: BufferedEvent)
    requires QueueInv(s) && s.sync.clock.Some? && s.sync.clock.value.online
    requires Next(env, s, DriverTick(now)).buf.draining == []
    requires it in s.buf.queue && DueAt(env.cfg, s.sync, it) <= now
    ensures it !in Next(env, s, DriverTick(now)).buf.queue
  {
    var q := s.buf.queue;
    var n := ReadyCount(env.cfg, s.sync, q, now);
    assert Next(env, s, DriverTick(now)).buf.queue == q[n..];
    DueFromThenOn(env.cfg, s.sync, it, now);
    forall i | n <= i < |q| ensures q[i] != it {
      assert i > n ==> Before(q[n], q[i]);
    }
  }

  ghost predicate OnlineWith(s: Server, basis: ClockBasis) {
    s.sync.clock.Some? && s.sync.clock.value.online && s.sync.clock.value.basis == basis
  }

  lemma StepKeepsAccepted(env: Env, s: Server, a: Action)
    ensures s.accepted <= Next(env, s, a).accepted
  {
    hide Enqueue, ReleaseStranded, ReleaseDue, OnIngestEvent, Record;
  }

  lemma {:induction false} AcceptedGrows(env: Env, states: seq<Server>, acts: seq<Action>, from: nat, till: nat)
    requires Runs(env, states, acts) && from <= till < |states|
    ensures states[from].accepted <= states[till].accepted
  {
    hide Next;
    if from < till {
      AcceptedGrows(env, states, acts, from, till - 1);
      StepKeepsAccepted(env, states[till - 1], acts[till - 1]);
    }
  }

  /** What a fresh sample and its rescue leave queued is within a threshold of the sampled time. */
  lemma RescueBoundsQueue(env: Env, s: Server, status: RconStatus)
    requires s.sync.inflight.Some?
    ensures var r := Next(env, s, SampleOk(status));
      && r.sync.clock.Some?
      && r.sync.clock.value.basis.activeTime == status.activeTime
      && r.sync.clock.value.basis.delaySeconds == status.delaySeconds
      && r.sync.clock.value.basis.sampledAt == s.sync.inflight.value.sampledAt
      && OnlineWith(r, r.sync.clock.value.basis)
      && forall it :: it in r.buf.queue ==> NumericTick(it) <= status.activeTime + TICK_RESET_THRESHOLD_S
  {
    hide SortByRelease;
    var sampled := s.(sync := HltvSync.SampleOk(s.sync, status));
    assert Next(env, s, SampleOk(status)).buf.queue == Sift(s.buf.queue, status.activeTime, false);
  }

  lemma HeldWhenIdle(s: Server, it: BufferedEvent)
    requires Conserved(s) && s.buf.draining == [] && it in s.accepted && it !in s.buf.queue
    ensures it in FiredItems(s.buf.fired)
  {
    assert it in multiset(s.accepted);
    assert Items(s.buf.draining) == [];
  }

  /** Everything a fresh sample leaves in the main queue has fired by a driver tick (delay + 30 s + slack)
      past the sample that finds the drain empty, whatever samples, failures and deliveries came in between,
      so long as the clock then online is no more than the slack behind the one sampled. */
  lemma NothingIsStuck(env: Env, states: seq<Server>, acts: seq<Action>, sample: nat, tick: nat, slack: real,
                       it: BufferedEvent)
    requires RunsFromStart(env, states, acts) && sample < tick < |acts|
    requires acts[sample].SampleOk? && states[sample].sync.inflight.Some? && states[sample + 1].sync.clock.Some?
    requires acts[tick].DriverTick? && states[tick + 1].buf.draining == []
    requires
      var basis, now := states[sample + 1].sync.clock.value.basis, acts[tick].now;
      && Broadcast(states[tick].sync, now).Some?
      && Broadcast(states[tick].sync, now).value >= BroadcastNow(basis, now) - slack
      && now >= states[sample].sync.inflight.value.sampledAt
                + (acts[sample].status.delaySeconds + TICK_RESET_THRESHOLD_S + slack) * 1000.0
                - basis.calibrationOffsetMs
    requires it in states[sample + 1].buf.queue
    ensures it in FiredItems(states[tick + 1].buf.fired)
  {
    hide Next, Conserved, QueueInv;
    RescueBoundsQueue(env, states[sample], acts[sample].status);
    AcceptedGrows(env, states, acts, sample + 1, tick);
    var now := acts[tick].now;
    RunConserves(env, states, acts, sample + 1);
    QueuedIsAccepted(states[sample + 1], it);
    assert NumericTick(it) <= Broadcast(states[tick].sync, now).value;
    FiredOnceDue(env, states, acts, tick, it);
  }

  /** An accepted event has fired by a driver tick that finds the drain empty and the clock at its tick. */
  lemma FiredOnceDue(env: Env, states: seq<Server>, acts: seq<Action>, tick: nat, it: BufferedEvent)
    requires RunsFromStart(env, states, acts) && tick < |acts|
    requires acts[tick].DriverTick? && states[tick + 1].buf.draining == []
    requires it in states[tick].accepted
    requires states[tick].sync.clock.Some? && states[tick].sync.clock.value.online
    requires DueAt(env.cfg, states[tick].sync, it) <= acts[tick].now
    ensures it in FiredItems(states[tick + 1].buf.fired)
  {
    hide Next, Conserved, QueueInv, DueAt;
    RunKeepsQueue(env, states, acts, tick);
    RunConserves(env, states, acts, tick + 1);
    assert states[tick + 1] == Next(env, states[tick], DriverTick(acts[tick].now));
    LeavesQueue(env, states[tick], acts[tick].now, it);
    HeldWhenIdle(states[tick + 1], it);
  }

  lemma QueuedIsAccepted(s: Server, it: BufferedEvent)
    requires Conserved(s) && it in s.buf.queue
    ensures it in s.accepted
  {
    assert it in Held(s.buf);
  }

  lemma LeavesQueue(env: Env, s: Server, now: real, it: BufferedEvent)
    requires QueueInv(s) && s.sync.clock.Some? && s.sync.clock.value.online
    requires Next(env, s, DriverTick(now)).buf.draining == []
    requires DueAt(env.cfg, s.sync, it) <= now
    ensures it !in Next(env, s, DriverTick(now)).buf.queue
    ensures Next(env, s, DriverTick(now)).accepted == s.accepted
  {
    if it in s.buf.queue {
      OnlineDriverTickFires(env, s, now, it);
    }
  }
}
