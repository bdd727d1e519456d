/** The broadcast clock of one HLTV proxy per game server: how it is sampled, coasted and
    invalidated, and how a change of level is detected from the event stream.

    Wall-clock instants are milliseconds, game ticks are seconds; both are `real`. A string field
    holds "" where the source has null, undefined or an empty string, which it never tells apart. */
module HltvSync {
  import opened Wrappers

  datatype Event = Event(name: string, tick: Option<real>, mapName: string)

  datatype Config = Config(
    enabled: bool,
    servers: set<string>,
    fallbackDelaySeconds: real,
    boardReleaseLagSeconds: real,
    coastGraceSeconds: real)

  /** The four parameters a broadcast projection needs. */
  datatype ClockBasis = ClockBasis(
    activeTime: real,
    sampledAt: real,
    delaySeconds: real,
    calibrationOffsetMs: real)

  datatype HltvClock = HltvClock(basis: ClockBasis, mapName: string, online: bool, lastError: string)

  /** What a successful `status` round trip reports. */
  datatype RconStatus = RconStatus(delaySeconds: real, activeTime: real, mapName: string)

  datatype Boundary = Boundary(at: real, preResetHighWater: real)

  /** A sample whose reply has not arrived yet. */
  datatype Sampling = Sampling(sampledAt: real, reason: string)

  /** Everything the service knows about one server. */
  datatype ServerSync = ServerSync(
    lazyInited: bool,
    clock: Option<HltvClock>,
    inflight: Option<Sampling>,
    highestEventTick: Option<real>,
    lastEventClock: Option<ClockBasis>,
    resetBasis: Option<ClockBasis>,
    lastBoundary: Option<Boundary>)

  const TICK_RESET_THRESHOLD_S := 30.0
  const STRAGGLER_WALL_WINDOW_MS := 120000.0
  const STRAGGLER_TICK_WINDOW_S := 120.0

  const UNSEEN := ServerSync(false, None, None, None, None, None, None)

  function Abs(x: real): real { if x < 0.0 then -x else x }

  function BroadcastNow(c: ClockBasis, now: real): real {
    c.activeTime + (now - c.sampledAt) / 1000.0 - c.delaySeconds + c.calibrationOffsetMs / 1000.0
  }

  predicate IsActive(cfg: Config, server: string) {
    cfg.enabled && server in cfg.servers
  }

  /** The live broadcast position, or None while the clock is missing or offline. */
  function Broadcast(s: ServerSync, now: real): Option<real> {
    if s.clock.Some? && s.clock.value.online then Some(BroadcastNow(s.clock.value.basis, now)) else None
  }

  function TailBasis(s: ServerSync): Option<ClockBasis> {
    if s.resetBasis.Some? then s.resetBasis else s.lastEventClock
  }

  /** Does `tick` belong to the level that ended at the last detected boundary? */
  predicate OldEpochTick(s: ServerSync, tick: real, now: real) {
    && s.lastBoundary.Some?
    && now - s.lastBoundary.value.at <= STRAGGLER_WALL_WINDOW_MS
    && (s.highestEventTick.Some? ==> tick - s.highestEventTick.value > TICK_RESET_THRESHOLD_S)
    && (s.clock.Some? && s.clock.value.online ==>
          var basis := s.clock.value.basis;
          tick > basis.activeTime + (now - basis.sampledAt) / 1000.0 + TICK_RESET_THRESHOLD_S)
    && Abs(tick - s.lastBoundary.value.preResetHighWater) <= STRAGGLER_TICK_WINDOW_S
  }

  /** The event names a map other than the one last sampled. */
  predicate MapChanged(s: ServerSync, e: Event) {
    s.clock.Some? && e.mapName != "" && s.clock.value.mapName != "" && e.mapName != s.clock.value.mapName
  }

  /** A same-map boundary: the tick fell far below the high-water mark and is not a straggler's. */
  predicate TickReset(s: ServerSync, e: Event, now: real) {
    && s.lazyInited
    && !MapChanged(s, e)
    && e.tick.Some?
    && !OldEpochTick(s, e.tick.value, now)
    && s.highestEventTick.Some?
    && s.highestEventTick.value - e.tick.value > TICK_RESET_THRESHOLD_S
  }

  /** Concurrent samples of one server coalesce into the one already in flight. */
  function StartSample(s: ServerSync, reason: string, now: real): ServerSync {
    if s.inflight.Some? then s else s.(inflight := Some(Sampling(now, reason)))
  }

  function PromoteEventBasis(s: ServerSync): ServerSync {
    if s.lastEventClock.Some? then s.(resetBasis := s.lastEventClock) else s
  }

  /** Pair the current clock with the event flow: only a ticked event and an online clock count. */
  function SnapshotClock(s: ServerSync, e: Event): ServerSync {
    if s.clock.Some? && s.clock.value.online && e.tick.Some?
    then s.(lastEventClock := Some(s.clock.value.basis))
    else s
  }

  function TakeOffline(s: ServerSync): ServerSync {
    if s.clock.Some? then s.(clock := Some(s.clock.value.(online := false))) else s
  }

  function NoteMapChange(s: ServerSync, now: real): ServerSync {
    var bounded := if s.highestEventTick.Some?
                   then s.(lastBoundary := Some(Boundary(now, s.highestEventTick.value)))
                   else s;
    StartSample(PromoteEventBasis(bounded.(highestEventTick := None)), "map_change", now)
  }

  function NoteTickReset(s: ServerSync, tick: real, now: real): ServerSync
    requires s.highestEventTick.Some?
  {
    var bounded := s.(lastBoundary := Some(Boundary(now, s.highestEventTick.value)));
    StartSample(TakeOffline(PromoteEventBasis(bounded)).(highestEventTick := Some(tick)), "tick_reset", now)
  }

  function RaiseHighWater(s: ServerSync, tick: real): ServerSync {
    if s.highestEventTick.None? || tick > s.highestEventTick.value
    then s.(highestEventTick := Some(tick))
    else s
  }

  function OnIngestEvent(s: ServerSync, e: Event, now: real): ServerSync {
    if !s.lazyInited then
      var inited := s.(lazyInited := true,
                       highestEventTick := if e.tick.Some? then e.tick else s.highestEventTick);
      StartSample(inited, "lazy_init", now)
    else if MapChanged(s, e) then
      SnapshotClock(NoteMapChange(s, now), e)
    else if e.tick.None? then
      s
    else if OldEpochTick(s, e.tick.value, now) then
      s
    else if TickReset(s, e, now) then
      NoteTickReset(s, e.tick.value, now)
    else
      SnapshotClock(RaiseHighWater(s, e.tick.value), e)
  }

  /** A reply arrived: adopt it, keeping the operator's calibration. */
  function SampleOk(s: ServerSync, status: RconStatus): ServerSync {
    if s.inflight.None? then s else
    var calibration := if s.clock.Some? then s.clock.value.basis.calibrationOffsetMs else 0.0;
    var basis := ClockBasis(status.activeTime, s.inflight.value.sampledAt, status.delaySeconds, calibration);
    s.(clock := Some(HltvClock(basis, status.mapName, true, "")), inflight := None)
  }

  predicate CanCoast(cfg: Config, s: ServerSync)
    requires s.inflight.Some?
  {
    && s.clock.Some?
    && s.clock.value.online
    && s.inflight.value.reason != "map_change"
    && s.inflight.value.sampledAt - s.clock.value.basis.sampledAt <= cfg.coastGraceSeconds * 1000.0
  }

  /** A sample failed: coast the last good clock, or fall to the fixed delay. */
  function SampleFail(cfg: Config, s: ServerSync, message: string): ServerSync {
    if s.inflight.None? then s else
    var clock :=
      if s.clock.Some? then s.clock.value.(online := CanCoast(cfg, s), lastError := message)
      else HltvClock(ClockBasis(0.0, s.inflight.value.sampledAt, cfg.fallbackDelaySeconds, 0.0),
                     "", false, message);
    s.(clock := Some(clock), inflight := None)
  }

  function SetCalibration(s: ServerSync, offsetMs: real): ServerSync {
    if s.clock.Some?
    then s.(clock := Some(s.clock.value.(basis := s.clock.value.basis.(calibrationOffsetMs := offsetMs))))
    else s
  }

  /** The service itself: one map per remembered fact, as the source keeps them. */
  class HltvSyncService {
    const cfg: Config
    var clocks: map<string, HltvClock>
    var lazyInited: set<string>
    var inflight: map<string, Sampling>
    var highestEventTick: map<string, real>
    var lastEventClock: map<string, ClockBasis>
    var resetBasis: map<string, ClockBasis>
    var lastBoundary: map<string, Boundary>

    constructor (cfg: Config)
      ensures this.cfg == cfg
      ensures forall server :: View(server) == UNSEEN
    {
      this.cfg := cfg;
      clocks, lazyInited, inflight := map[], {}, map[];
      highestEventTick, lastEventClock, resetBasis, lastBoundary := map[], map[], map[], map[];
    }

    ghost function View(server: string): ServerSync
      reads this
    {
      ServerSync(server in lazyInited, Get(clocks, server), Get(inflight, server),
                 Get(highestEventTick, server), Get(lastEventClock, server),
                 Get(resetBasis, server), Get(lastBoundary, server))
    }

    function BroadcastAt(server: string, now: real): (r: Option<real>)
      reads this
      ensures r == Broadcast(View(server), now)
    {
      if server in clocks && clocks[server].online then Some(BroadcastNow(clocks[server].basis, now)) else None
    }

    function TailBasisOf(server: string): (r: Option<ClockBasis>)
      reads this
      ensures r == TailBasis(View(server))
    {
      if server in resetBasis then Some(resetBasis[server]) else Get(lastEventClock, server)
    }

    /** The straggler test, in the order of early exits the source uses. */
    method IsOldEpoch(server: string, tick: real, now: real) returns (old_: bool)
      ensures old_ == OldEpochTick(View(server), tick, now)
    {
      if server !in lastBoundary || now - lastBoundary[server].at > STRAGGLER_WALL_WINDOW_MS {
        return false;
      }
      if server in highestEventTick && tick - highestEventTick[server] <= TICK_RESET_THRESHOLD_S {
        return false;
      }
      if server in clocks && clocks[server].online {
        var basis := clocks[server].basis;
        var currentGameTime := basis.activeTime + (now - basis.sampledAt) / 1000.0;
        if tick <= currentGameTime + TICK_RESET_THRESHOLD_S {
          return false;
        }
      }
      return Abs(tick - lastBoundary[server].preResetHighWater) <= STRAGGLER_TICK_WINDOW_S;
    }

    method Promote(server: string)
      modifies this`resetBasis
      ensures View(server) == PromoteEventBasis(old(View(server)))
      ensures forall other :: other != server ==> View(other) == old(View(other))
    {
      if server in lastEventClock {
        resetBasis := resetBasis[server := lastEventClock[server]];
      }
    }

    method Sample(server: string, reason: string, now: real)
      modifies this`inflight
      ensures View(server) == if cfg.enabled && server in cfg.servers then StartSample(old(View(server)), reason, now)
                              else old(View(server))
      ensures forall other :: other != server ==> View(other) == old(View(other))
    {
      if IsActive(cfg, server) && server !in inflight {
        inflight := inflight[server := Sampling(now, reason)];
      }
    }

    method BeginMapChange(server: string, now: real)
      requires IsActive(cfg, server)
      modifies this
      ensures View(server) == NoteMapChange(old(View(server)), now)
      ensures forall other :: other != server ==> View(other) == old(View(other))
    {
      if server in highestEventTick {
        lastBoundary := lastBoundary[server := Boundary(now, highestEventTick[server])];
      }
      highestEventTick := highestEventTick - {server};
      assert forall other :: other != server ==> View(other) == old(View(other));
      Promote(server);
      Sample(server, "map_change", now);
    }

    method BeginTickReset(server: string, tick: real, now: real)
      requires IsActive(cfg, server) && server in highestEventTick
      modifies this
      ensures View(server) == NoteTickReset(old(View(server)), tick, now)
      ensures forall other :: other != server ==> View(other) == old(View(other))
    {
      lastBoundary := lastBoundary[server := Boundary(now, highestEventTick[server])];
      assert forall other :: other != server ==> View(other) == old(View(other));
      Promote(server);
      if server in clocks {
        clocks := clocks[server := clocks[server].(online := false)];
      }
      highestEventTick := highestEventTick[server := tick];
      assert forall other :: other != server ==> View(other) == old(View(other));
      Sample(server, "tick_reset", now);
    }

    method Ingest(server: string, e: Event, now: real)
      modifies this
      ensures View(server) == if cfg.enabled && server in cfg.servers then OnIngestEvent(old(View(server)), e, now)
                              else old(View(server))
      ensures forall other :: other != server ==> View(other) == old(View(other))
    {
      hide StartSample, NoteMapChange, NoteTickReset, OldEpochTick;
      if !IsActive(cfg, server) {
        return;
      }
      if server !in lazyInited {
        lazyInited := lazyInited + {server};
        if e.tick.Some? {
          highestEventTick := highestEventTick[server := e.tick.value];
        }
        Sample(server, "lazy_init", now);
        return;
      }
      if server in clocks && e.mapName != "" && clocks[server].mapName != "" && e.mapName != clocks[server].mapName {
        BeginMapChange(server, now);
      } else if e.tick.Some? {
        var tick := e.tick.value;
        var straggler := IsOldEpoch(server, tick, now);
        if straggler {
          return;
        }
        if server in highestEventTick && highestEventTick[server] - tick > TICK_RESET_THRESHOLD_S {
          BeginTickReset(server, tick, now);
          return;
        }
        if server !in highestEventTick || tick > highestEventTick[server] {
          highestEventTick := highestEventTick[server := tick];
        }
      }
      if server in clocks && clocks[server].online && e.tick.Some? {
        lastEventClock := lastEventClock[server := clocks[server].basis];
      }
    }

    method Succeed(server: string, status: RconStatus)
      modifies this
      ensures View(server) == SampleOk(old(View(server)), status)
      ensures forall other :: other != server ==> View(other) == old(View(other))
    {
      if server in inflight {
        var calibration := if server in clocks then clocks[server].basis.calibrationOffsetMs else 0.0;
        var basis := ClockBasis(status.activeTime, inflight[server].sampledAt, status.delaySeconds, calibration);
        clocks := clocks[server := HltvClock(basis, status.mapName, true, "")];
        inflight := inflight - {server};
      }
    }

    method Fail(server: string, message: string)
      modifies this
      ensures View(server) == SampleFail(cfg, old(View(server)), message)
      ensures forall other :: other != server ==> View(other) == old(View(other))
    {
      if server in inflight {
        var sampling := inflight[server];
        if server in clocks {
          var prev := clocks[server];
          var ageMs := sampling.sampledAt - prev.basis.sampledAt;
          var canCoast := prev.online && sampling.reason != "map_change" && ageMs <= cfg.coastGraceSeconds * 1000.0;
          clocks := clocks[server := if canCoast then prev.(lastError := message)
                                     else prev.(online := false, lastError := message)];
        } else {
          var basis := ClockBasis(0.0, sampling.sampledAt, cfg.fallbackDelaySeconds, 0.0);
          clocks := clocks[server := HltvClock(basis, "", false, message)];
        }
        inflight := inflight - {server};
      }
    }

    method Calibrate(server: string, offsetMs: real)
      modifies this`clocks
      ensures View(server) == SetCalibration(old(View(server)), offsetMs)
      ensures forall other :: other != server ==> View(other) == old(View(other))
    {
      if server in clocks {
        var c := clocks[server];
        clocks := clocks[server := c.(basis := c.basis.(calibrationOffsetMs := offsetMs))];
      }
    }
  }
}
