/** What the sync service remembers of a server, told from the run alone: which posts were boundaries and which
    were of an ended level, what was in flight, and where each part of the clock comes from. Windows and thresholds
    are written out in seconds and milliseconds. */
module HltvHistory {
  import opened Wrappers
  import opened HltvSync
  import opened HltvDelayBuffer
  import opened HltvPipeline
  import opened HltvLaws

  // ---- What a post is ----

  /** A tick of the level that ended at the last boundary: within two minutes of it, more than 30 s past every tick
      since, more than 30 s past where an online clock has the game by now, and within 120 s of the final tick. */
  predicate OfEndedLevel(s: ServerSync, tick: real, now: real) {
    && s.lastBoundary.Some? && now <= s.lastBoundary.value.at + 120000.0
    && (s.highestEventTick.Some? ==> tick > s.highestEventTick.value + 30.0)
    && (s.clock.Some? && s.clock.value.online ==>
          var b := s.clock.value.basis; (tick - b.activeTime - 30.0) * 1000.0 > now - b.sampledAt)
    && s.lastBoundary.value.preResetHighWater - 120.0 <= tick <= s.lastBoundary.value.preResetHighWater + 120.0
  }

  predicate FirstPost(s: Server, a: Action) { a.Deliver? && s.accepted == [] }

  /** A later post that names another map than the one last sampled. */
  predicate NamesOther(s: Server, a: Action) {
    && a.Deliver? && s.accepted != [] && s.sync.clock.Some?
    && a.event.mapName != "" && s.sync.clock.value.mapName != "" && a.event.mapName != s.sync.clock.value.mapName
  }

  /** A later post with a tick of the level at hand. */
  predicate OfThisLevel(s: Server, a: Action) {
    && a.Deliver? && s.accepted != [] && !NamesOther(s, a)
    && a.event.tick.Some? && !OfEndedLevel(s.sync, a.event.tick.value, a.now)
  }

  /** Its tick is more than 30 s below the high-water mark. */
  predicate FallsBack(s: Server, a: Action) {
    OfThisLevel(s, a) && s.sync.highestEventTick.Some? && a.event.tick.value < s.sync.highestEventTick.value - 30.0
  }

  predicate IsBoundary(s: Server, a: Action) { NamesOther(s, a) || FallsBack(s, a) }

  // ---- What it leaves, told from the run ----

  /** The latest value `f` gives at a step before `k`. */
  function Latest<T>(states: seq<Server>, acts: seq<Action>, f: (Server, Action) -> Option<T>, k: nat): Option<T>
    requires k <= |acts| && k <= |states|
  {
    if k == 0 then None
    else if f(states[k - 1], acts[k - 1]).Some? then f(states[k - 1], acts[k - 1])
    else Latest(states, acts, f, k - 1)
  }

  /** The reason for which the step asks for a sample. */
  function Asks(s: Server, a: Action): Option<string> {
    if a.StartSample? then Some(a.reason)
    else if FirstPost(s, a) then Some("lazy_init")
    else if NamesOther(s, a) then Some("map_change")
    else if FallsBack(s, a) then Some("tick_reset")
    else None
  }

  predicate Completes(s: Server, a: Action) { (a.SampleOk? || a.SampleFail?) && s.sync.inflight.Some? }

  /** A sample begins at the instant it is asked for unless one is in flight, and ends with its reply or failure. */
  function FlightAt(s: Server, a: Action): Option<Option<Sampling>> {
    if Completes(s, a) then Some(None)
    else if Asks(s, a).Some? && s.sync.inflight.None? && (a.Deliver? || a.StartSample?)
    then Some(Some(Sampling(a.now, Asks(s, a).value)))
    else None
  }

  function OffsetAt(s: Server, a: Action): Option<real> {
    if a.Calibrate? && s.sync.clock.Some? then Some(a.offsetMs) else None
  }

  function BoundaryAt(s: Server, a: Action): Option<Boundary> {
    if IsBoundary(s, a) && s.sync.highestEventTick.Some? && a.Deliver?
    then Some(Boundary(a.now, s.sync.highestEventTick.value)) else None
  }

  function PromotionAt(s: Server, a: Action): Option<ClockBasis> {
    if IsBoundary(s, a) then s.sync.lastEventClock else None
  }

  /** A ticked post that is no tick reset and not of an ended level is paired with an online clock. */
  function PairingAt(s: Server, a: Action): Option<ClockBasis> {
    if a.Deliver? && a.event.tick.Some? && (NamesOther(s, a) || (OfThisLevel(s, a) && !FallsBack(s, a)))
       && s.sync.clock.Some? && s.sync.clock.value.online
    then Some(s.sync.clock.value.basis) else None
  }

  /** The game time, delay, instant and map of a reading. */
  datatype Reading = Reading(activeTime: real, delaySeconds: real, sampledAt: real, mapName: string)

  function ReadingOf(c: HltvClock): Reading {
    Reading(c.basis.activeTime, c.basis.delaySeconds, c.basis.sampledAt, c.mapName)
  }

  /** What a reply says, as of the instant its sample began; the fixed delay when a first sample fails. */
  function ReadingAt(cfg: Config, s: Server, a: Action): Option<Reading> {
    if a.SampleOk? && s.sync.inflight.Some?
    then Some(Reading(a.status.activeTime, a.status.delaySeconds, s.sync.inflight.value.sampledAt, a.status.mapName))
    else if a.SampleFail? && s.sync.inflight.Some? && s.sync.clock.None?
    then Some(Reading(0.0, cfg.fallbackDelaySeconds, s.sync.inflight.value.sampledAt, ""))
    else None
  }

  function ErrorAt(s: Server, a: Action): Option<string> {
    if !Completes(s, a) then None else Some(if a.SampleOk? then "" else if a.SampleFail? then a.message else "")
  }

  /** A failure no clock coasts through: of the sample a map change forced, or once the good sample is older than
      the grace period. */
  predicate FailsForGood(cfg: Config, s: Server, a: Action) {
    && a.SampleFail? && s.sync.inflight.Some?
    && (s.sync.inflight.value.reason == "map_change"
        || (s.sync.clock.Some?
            && s.sync.inflight.value.sampledAt > s.sync.clock.value.basis.sampledAt + cfg.coastGraceSeconds * 1000.0))
  }

  function OnlineAt(cfg: Config, s: Server, a: Action): Option<bool> {
    if a.SampleOk? && s.sync.inflight.Some? then Some(true)
    else if FallsBack(s, a) || FailsForGood(cfg, s, a) then Some(false)
    else None
  }

  /** The ticks of the current level's posts so far. */
  function TicksSince(states: seq<Server>, acts: seq<Action>, k: nat): seq<real>
    requires k <= |acts| && k <= |states|
  {
    if k == 0 then []
    else
      var s, a, before := states[k - 1], acts[k - 1], TicksSince(states, acts, k - 1);
      if NamesOther(s, a) then []
      else if FallsBack(s, a) then [a.event.tick.value]
      else if FirstPost(s, a) && a.event.tick.Some? then [a.event.tick.value]
      else if OfThisLevel(s, a) then before + [a.event.tick.value]
      else before
  }

  ghost predicate HighestOf(mark: Option<real>, ticks: seq<real>) {
    if mark.None? then ticks == [] else mark.value in ticks && forall t :: t in ticks ==> t <= mark.value
  }

  // ---- One step ----

  ghost predicate Begun(s: Server) {
    && (s.sync.lazyInited <==> s.accepted != [])
    && (!s.sync.lazyInited ==> s.sync.highestEventTick.None? && s.sync.lastEventClock.None?)
  }

  /** The two ways of judging a post agree. */
  lemma SameJudgement(s: Server, a: Action)
    requires Begun(s) && a.Deliver?
    ensures a.event.tick.Some? ==>
              (OldEpochTick(s.sync, a.event.tick.value, a.now) <==> OfEndedLevel(s.sync, a.event.tick.value, a.now))
    ensures s.sync.lazyInited ==> (MapChanged(s.sync, a.event) <==> NamesOther(s, a))
    ensures TickReset(s.sync, a.event, a.now) <==> FallsBack(s, a)
  {
  }

  /** Nothing but a post touches what is remembered of posts. */
  lemma OthersKeepPosts(env: Env, s: Server, a: Action)
    requires !a.Deliver?
    ensures var r := Next(env, s, a);
      && r.sync == s.sync.(clock := r.sync.clock, inflight := r.sync.inflight) && r.accepted == s.accepted
      && (if a.StartSample? then r.sync == HltvSync.StartSample(s.sync, a.reason, a.now)
          else if a.SampleOk? then r.sync == HltvSync.SampleOk(s.sync, a.status)
          else if a.SampleFail? then r.sync == HltvSync.SampleFail(env.cfg, s.sync, a.message)
          else if a.Calibrate? then r.sync == SetCalibration(s.sync, a.offsetMs)
          else r.sync == s.sync)
  {
    hide ReleaseStranded, ReleaseDue, CanCoast;
  }

  lemma PostSyncs(env: Env, s: Server, a: Action)
    requires a.Deliver?
    ensures Next(env, s, a).sync == OnIngestEvent(s.sync, a.event, a.now) && Next(env, s, a).accepted != []
  {
    hide Enqueue, Moved, OnIngestEvent;
  }

  lemma StepIsBegun(env: Env, s: Server, a: Action)
    requires Begun(s)
    ensures Begun(Next(env, s, a))
  {
    hide Next, OldEpochTick;
    if a.Deliver? {
      PostSyncs(env, s, a);
    } else {
      OthersKeepPosts(env, s, a);
    }
  }

  lemma {:induction false} RunIsBegun(env: Env, states: seq<Server>, acts: seq<Action>, k: nat)
    requires RunsFromStart(env, states, acts) && k < |states|
    ensures Begun(states[k])
  {
    hide Next;
    if k > 0 {
      RunIsBegun(env, states, acts, k - 1);
      StepIsBegun(env, states[k - 1], acts[k - 1]);
    }
  }

  function Or<T>(a: Option<T>, b: Option<T>): Option<T> { if a.Some? then a else b }

  lemma StepTellsPosts(env: Env, s: Server, a: Action)
    requires Begun(s)
    ensures var r := Next(env, s, a).sync;
      && r.lastBoundary == Or(BoundaryAt(s, a), s.sync.lastBoundary)
      && r.resetBasis == Or(PromotionAt(s, a), s.sync.resetBasis)
      && r.lastEventClock == Or(PairingAt(s, a), s.sync.lastEventClock)
      && r.inflight == FlightAt(s, a).GetOr(s.sync.inflight)
  {
    hide Next, OldEpochTick, OfEndedLevel, CanCoast;
    if a.Deliver? {
      SameJudgement(s, a);
      PostSyncs(env, s, a);
    } else {
      OthersKeepPosts(env, s, a);
    }
  }

  lemma StepTellsTicks(env: Env, s: Server, a: Action, ticks: seq<real>)
    requires Begun(s) && HighestOf(s.sync.highestEventTick, ticks)
    ensures
      var told := if NamesOther(s, a) then []
                  else if FallsBack(s, a) then [a.event.tick.value]
                  else if FirstPost(s, a) && a.event.tick.Some? then [a.event.tick.value]
                  else if OfThisLevel(s, a) then ticks + [a.event.tick.value]
                  else ticks;
      HighestOf(Next(env, s, a).sync.highestEventTick, told)
  {
    hide Next, OldEpochTick, OfEndedLevel, CanCoast;
    if a.Deliver? {
      SameJudgement(s, a);
      PostSyncs(env, s, a);
    } else {
      OthersKeepPosts(env, s, a);
    }
  }

  lemma StepTellsClock(env: Env, s: Server, a: Action)
    requires Begun(s)
    ensures var r, was := Next(env, s, a).sync.clock, s.sync.clock;
      && (r.Some? <==> was.Some? || Completes(s, a))
      && (ReadingAt(env.cfg, s, a).Some? ==> Completes(s, a))
      && (was.None? && Completes(s, a) ==> ReadingAt(env.cfg, s, a).Some?)
      && (OffsetAt(s, a).Some? ==> was.Some?)
      && (r.Some? ==>
            && Some(ReadingOf(r.value))
               == Or(ReadingAt(env.cfg, s, a), if was.Some? then Some(ReadingOf(was.value)) else None)
            && r.value.online == OnlineAt(env.cfg, s, a).GetOr(was.Some? && was.value.online)
            && r.value.lastError == ErrorAt(s, a).GetOr(if was.Some? then was.value.lastError else "")
            && r.value.basis.calibrationOffsetMs
               == OffsetAt(s, a).GetOr(if was.Some? then was.value.basis.calibrationOffsetMs else 0.0))
  {
    hide Next, OldEpochTick, OfEndedLevel;
    if a.Deliver? {
      SameJudgement(s, a);
      PostSyncs(env, s, a);
    } else {
      OthersKeepPosts(env, s, a);
    }
  }

  // ---- Whole runs ----

  /** The last boundary is the last post that named another map or fell back while there was a high-water mark, at
      its instant and with that mark; the promoted basis is what was paired by the last boundary that had something
      paired; the last pairing is the clock online at the last post of its level, or naming another map. */
  lemma {:induction false} PostsAreRemembered(env: Env, states: seq<Server>, acts: seq<Action>, k: nat)
    requires RunsFromStart(env, states, acts) && k < |states|
    ensures states[k].sync.lastBoundary == Latest(states, acts, BoundaryAt, k)
    ensures states[k].sync.resetBasis == Latest(states, acts, PromotionAt, k)
    ensures states[k].sync.lastEventClock == Latest(states, acts, PairingAt, k)
  {
    hide Next, BoundaryAt, PromotionAt, PairingAt, FlightAt;
    if k > 0 {
      PostsAreRemembered(env, states, acts, k - 1);
      RunIsBegun(env, states, acts, k - 1);
      StepTellsPosts(env, states[k - 1], acts[k - 1]);
    }
  }

  /** The high-water mark is the highest tick of the level at hand. */
  lemma {:induction false} HighWaterIsTheHighest(env: Env, states: seq<Server>, acts: seq<Action>, k: nat)
    requires RunsFromStart(env, states, acts) && k < |states|
    ensures HighestOf(states[k].sync.highestEventTick, TicksSince(states, acts, k))
  {
    hide Next, NamesOther, FallsBack, FirstPost;
    if k > 0 {
      HighWaterIsTheHighest(env, states, acts, k - 1);
      RunIsBegun(env, states, acts, k - 1);
      StepTellsTicks(env, states[k - 1], acts[k - 1], TicksSince(states, acts, k - 1));
    }
  }

  /** What is in flight was asked for with nothing in flight, by the first post, a boundary or a heartbeat, at that
      instant and for that reason, and no reply or failure has come since. */
  lemma {:induction false} FlightIsTheLatestAsked(env: Env, states: seq<Server>, acts: seq<Action>, k: nat)
    requires RunsFromStart(env, states, acts) && k < |states|
    ensures states[k].sync.inflight == Latest(states, acts, FlightAt, k).GetOr(None)
  {
    hide Next, BoundaryAt, PromotionAt, PairingAt, FlightAt;
    if k > 0 {
      FlightIsTheLatestAsked(env, states, acts, k - 1);
      RunIsBegun(env, states, acts, k - 1);
      StepTellsPosts(env, states[k - 1], acts[k - 1]);
    }
  }

  /** So the server's first post, a post that names another map and one that falls back leave a sample in flight,
      begun with them if none was. */
  lemma BoundariesAreSampled(env: Env, states: seq<Server>, acts: seq<Action>, n: nat)
    requires RunsFromStart(env, states, acts) && n < |acts| && acts[n].Deliver?
    requires states[n].accepted == [] || IsBoundary(states[n], acts[n])
    ensures states[n + 1].sync.inflight.Some?
    ensures states[n].sync.inflight.None? ==>
      states[n + 1].sync.inflight.value
      == Sampling(acts[n].now, if states[n].accepted == [] then "lazy_init"
                               else if NamesOther(states[n], acts[n]) then "map_change" else "tick_reset")
  {
    hide Next, BoundaryAt, PromotionAt, PairingAt, OfEndedLevel;
    RunIsBegun(env, states, acts, n);
    StepTellsPosts(env, states[n], acts[n]);
  }

  /** A clock's calibration is the offset last set while there was a clock, 0 if none was, through replies, failures
      and boundaries. */
  lemma {:induction false} CalibrationIsTheOperators(env: Env, states: seq<Server>, acts: seq<Action>, k: nat)
    requires RunsFromStart(env, states, acts) && k < |states|
    ensures
      var offset := Latest(states, acts, OffsetAt, k);
      if states[k].sync.clock.Some? then states[k].sync.clock.value.basis.calibrationOffsetMs == offset.GetOr(0.0)
      else offset.None?
  {
    hide Next, ReadingAt, ErrorAt, OnlineAt, Completes, ReadingOf, Or;
    if k > 0 {
      CalibrationIsTheOperators(env, states, acts, k - 1);
      RunIsBegun(env, states, acts, k - 1);
      StepTellsClock(env, states[k - 1], acts[k - 1]);
    }
  }

  /** A clock reads what the latest reply said, as of the instant its sample began, and its error is that of the
      latest completion; there is a clock once some sample has completed. */
  lemma {:induction false} ClockReadsTheLatestReply(env: Env, states: seq<Server>, acts: seq<Action>, k: nat)
    requires RunsFromStart(env, states, acts) && k < |states|
    ensures
      var clock := states[k].sync.clock;
      var reading := Latest(states, acts, (s: Server, a: Action) => ReadingAt(env.cfg, s, a), k);
      if clock.Some? then
        reading == Some(ReadingOf(clock.value)) && Latest(states, acts, ErrorAt, k) == Some(clock.value.lastError)
      else reading.None? && Latest(states, acts, ErrorAt, k).None?
  {
    hide Next, OffsetAt, OnlineAt, ReadingAt, ReadingOf;
    if k > 0 {
      ClockReadsTheLatestReply(env, states, acts, k - 1);
      RunIsBegun(env, states, acts, k - 1);
      StepTellsClock(env, states[k - 1], acts[k - 1]);
    }
  }

  /** And it is online exactly when some reply has come and no tick reset or failure for good has followed it. */
  lemma {:induction false} ClockIsOnlineExactlyWhen(env: Env, states: seq<Server>, acts: seq<Action>, k: nat)
    requires RunsFromStart(env, states, acts) && k < |states|
    ensures
      states[k].sync.clock.Some? && states[k].sync.clock.value.online <==>
      Latest(states, acts, (s: Server, a: Action) => OnlineAt(env.cfg, s, a), k) == Some(true)
  {
    hide Next, OffsetAt, ReadingAt, ReadingOf, ErrorAt, FallsBack, FailsForGood;
    if k > 0 {
      ClockIsOnlineExactlyWhen(env, states, acts, k - 1);
      RunIsBegun(env, states, acts, k - 1);
      StepTellsClock(env, states[k - 1], acts[k - 1]);
    }
  }
}
