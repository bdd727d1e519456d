/** The sync service, the delay buffer and the stranded-event rescue wired together, as one step
    system per server. `accepted` and `drained` are histories the code does not keep: every post
    taken in, and every event ever moved to the drain with the instant it was stamped with. */
module HltvPipeline {
  import opened Wrappers
  import opened HltvSync
  import opened HltvDelayBuffer

  datatype Env = Env(cfg: Config, name: string)

  datatype Server = Server(
    sync: ServerSync,
    buf: ServerBuffer,
    accepted: seq<BufferedEvent>,
    drained: seq<DrainItem>)

  datatype Action =
    | Deliver(event: Event, now: real)
    | StartSample(reason: string, now: real)
    | SampleOk(status: RconStatus)
    | SampleFail(message: string)
    | Calibrate(offsetMs: real)
    | DriverTick(now: real)

  const INIT := Server(UNSEEN, EMPTY, [], [])

  /** What an enqueue moves to the drain. */
  function Moved(sync: ServerSync, b: ServerBuffer, it: BufferedEvent, now: real): seq<BufferedEvent> {
    if OldEpochTick(sync, NumericTick(it), now) then [it]
    else if TailFarAbove(b.queue, NumericTick(it)) then b.queue
    else []
  }

  function Record(env: Env, s: Server, moved: seq<BufferedEvent>): seq<DrainItem> {
    s.drained + Stamp(env.cfg, moved, TailBasis(s.sync))
  }

  function Numbered(env: Env, s: Server, e: Event, now: real): BufferedEvent {
    BufferedEvent(env.name, e, now, |s.accepted|)
  }

  /** The ingest handler's order: boundary detection first, then the enqueue. */
  function DeliverTo(env: Env, s: Server, e: Event, now: real): Server {
    var it := Numbered(env, s, e, now);
    var seen := s.(sync := OnIngestEvent(s.sync, e, now));
    Server(seen.sync, Enqueue(env.cfg, seen.sync, s.buf, it, now), s.accepted + [it],
           Record(env, seen, Moved(seen.sync, s.buf, it, now)))
  }

  /** A clock emission rescues stranded events only when the clock is online and error-free. */
  function EmitClock(env: Env, s: Server): Server {
    if s.sync.clock.None? || !s.sync.clock.value.online || s.sync.clock.value.lastError != "" then s
    else
      var activeTime := s.sync.clock.value.basis.activeTime;
      s.(buf := ReleaseStranded(env.cfg, s.sync, s.buf, activeTime),
         drained := Record(env, s, Sift(s.buf.queue, activeTime, true)))
  }

  function Next(env: Env, s: Server, a: Action): Server {
    match a
    case Deliver(e, now) => DeliverTo(env, s, e, now)
    case StartSample(reason, now) => s.(sync := HltvSync.StartSample(s.sync, reason, now))
    case SampleOk(status) =>
      if s.sync.inflight.None? then s
      else EmitClock(env, s.(sync := HltvSync.SampleOk(s.sync, status)))
    case SampleFail(message) =>
      if s.sync.inflight.None? then s
      else EmitClock(env, s.(sync := HltvSync.SampleFail(env.cfg, s.sync, message)))
    case Calibrate(offsetMs) => EmitClock(env, s.(sync := SetCalibration(s.sync, offsetMs)))
    case DriverTick(now) => s.(buf := ReleaseDue(env.cfg, s.sync, s.buf, now))
  }

  /** `states` is what one server goes through under `acts`, from wherever it starts. */
  ghost predicate Runs(env: Env, states: seq<Server>, acts: seq<Action>) {
    && |states| == |acts| + 1
    && forall i {:trigger acts[i]} :: 0 <= i < |acts| ==> states[i + 1] == Next(env, states[i], acts[i])
  }

  ghost predicate RunsFromStart(env: Env, states: seq<Server>, acts: seq<Action>) {
    Runs(env, states, acts) && states[0] == INIT
  }

  /** The two objects and their wiring. Every method is one action of the step system for the
      server it names and leaves every other server as it was. */
  class Trio {
    const sync: HltvSyncService
    const buffer: HltvDelayBuffer
    var posted: map<string, nat>
    ghost var accepted: map<string, seq<BufferedEvent>>
    ghost var drained: map<string, seq<DrainItem>>

    constructor (cfg: Config)
      ensures Valid() && sync.cfg == cfg && fresh(sync) && fresh(buffer)
      ensures forall server :: View(server) == INIT
    {
      var service := new HltvSyncService(cfg);
      sync := service;
      buffer := new HltvDelayBuffer(service);
      posted, accepted, drained := map[], map[], map[];
    }

    ghost predicate Valid()
      reads this, buffer
    {
      && buffer.sync == sync && buffer.Valid()
      && forall server :: |Get(accepted, server).GetOr([])| == Get(posted, server).GetOr(0)
    }

    ghost function View(server: string): Server
      reads this, sync, buffer
    {
      Server(sync.View(server), buffer.View(server), Get(accepted, server).GetOr([]), Get(drained, server).GetOr([]))
    }

    ghost method NoteDrained(server: string, moved: seq<BufferedEvent>)
      requires Valid()
      modifies this`drained
      ensures Valid()
      ensures View(server) == old(View(server)).(drained := Record(Env(sync.cfg, server), old(View(server)), moved))
      ensures forall other :: other != server ==> View(other) == old(View(other))
    {
      drained := drained[server := Record(Env(sync.cfg, server), View(server), moved)];
    }

    method Number(server: string, it: BufferedEvent)
      requires Valid() && it.arrival == Get(posted, server).GetOr(0)
      modifies this`posted, this`accepted
      ensures Valid()
      ensures View(server) == old(View(server)).(accepted := old(View(server)).accepted + [it])
      ensures forall other :: other != server ==> View(other) == old(View(other))
    {
      ghost var log := Get(accepted, server).GetOr([]) + [it];
      assert forall other :: |Get(accepted, other).GetOr([])| == Get(posted, other).GetOr(0);
      posted := posted[server := it.arrival + 1];
      accepted := accepted[server := log];
      forall other ensures |Get(accepted, other).GetOr([])| == Get(posted, other).GetOr(0) {
        assert other != server ==> Get(accepted, other) == old(Get(accepted, other));
        assert other != server ==> Get(posted, other) == old(Get(posted, other));
      }
    }

    /** First half of a POST: boundary detection. */
    method Observe(server: string, e: Event, now: real)
      requires Valid() && IsActive(sync.cfg, server)
      modifies sync
      ensures Valid()
      ensures View(server) == old(View(server)).(sync := OnIngestEvent(old(View(server)).sync, e, now))
      ensures forall other :: other != server ==> View(other) == old(View(other))
    {
      sync.Ingest(server, e, now);
    }

    /** Second half: the event, numbered, goes into the buffer. */
    method Buffer(server: string, it: BufferedEvent, now: real)
      requires Valid() && it.server == server && it.arrival == Get(posted, server).GetOr(0)
      modifies this, buffer
      ensures Valid()
      ensures var s := old(View(server));
              View(server) == Server(s.sync, Enqueue(sync.cfg, s.sync, s.buf, it, now), s.accepted + [it],
                                     Record(Env(sync.cfg, server), s, Moved(s.sync, s.buf, it, now)))
      ensures forall other :: other != server ==> View(other) == old(View(other))
    {
      Number(server, it);
      NoteDrained(server, Moved(sync.View(server), buffer.View(server), it, now));
      buffer.Accept(it, now);
    }

    /** One POST from a server configured for HLTV sync. */
    method Post(server: string, e: Event, now: real)
      requires Valid() && IsActive(sync.cfg, server)
      modifies this, sync, buffer
      ensures Valid()
      ensures View(server) == Next(Env(sync.cfg, server), old(View(server)), Deliver(e, now))
      ensures forall other :: other != server ==> View(other) == old(View(other))
    {
      var number := if server in posted then posted[server] else 0;
      Observe(server, e, now);
      Buffer(server, BufferedEvent(server, e, now, number), now);
    }

    method BeginSample(server: string, reason: string, now: real)
      requires Valid() && IsActive(sync.cfg, server)
      modifies sync
      ensures Valid()
      ensures View(server) == Next(Env(sync.cfg, server), old(View(server)), StartSample(reason, now))
      ensures forall other :: other != server ==> View(other) == old(View(other))
    {
      sync.Sample(server, reason, now);
    }

    /** The listener that `wireStrandedRescue` attaches to the clock emission. */
    method OnClock(server: string)
      requires Valid()
      modifies this, buffer
      ensures Valid()
      ensures View(server) == EmitClock(Env(sync.cfg, server), old(View(server)))
      ensures forall other :: other != server ==> View(other) == old(View(other))
    {
      if server in sync.clocks && sync.clocks[server].online && sync.clocks[server].lastError == "" {
        var activeTime := sync.clocks[server].basis.activeTime;
        ghost var stranded := Sift(buffer.View(server).queue, activeTime, true);
        NoteDrained(server, stranded);
        buffer.Rescue(server, activeTime);
      }
    }

    method SampleSucceeds(server: string, status: RconStatus)
      requires Valid()
      modifies this, sync, buffer
      ensures Valid()
      ensures View(server) == Next(Env(sync.cfg, server), old(View(server)), SampleOk(status))
      ensures forall other :: other != server ==> View(other) == old(View(other))
    {
      if server in sync.inflight {
        sync.Succeed(server, status);
        assert forall other :: other != server ==> View(other) == old(View(other));
        OnClock(server);
      }
    }

    method SampleFails(server: string, message: string)
      requires Valid()
      modifies this, sync, buffer
      ensures Valid()
      ensures View(server) == Next(Env(sync.cfg, server), old(View(server)), SampleFail(message))
      ensures forall other :: other != server ==> View(other) == old(View(other))
    {
      if server in sync.inflight {
        sync.Fail(server, message);
        assert forall other :: other != server ==> View(other) == old(View(other));
        OnClock(server);
      }
    }

    method SetOffset(server: string, offsetMs: real)
      requires Valid()
      modifies this, sync, buffer
      ensures Valid()
      ensures View(server) == Next(Env(sync.cfg, server), old(View(server)), Calibrate(offsetMs))
      ensures forall other :: other != server ==> View(other) == old(View(other))
    {
      sync.Calibrate(server, offsetMs);
      assert forall other :: other != server ==> View(other) == old(View(other));
      OnClock(server);
    }

    /** The 50 ms driver serves every server at once. */
    method Drive(now: real)
      requires Valid()
      modifies buffer
      ensures Valid()
      ensures forall server :: View(server) == Next(Env(sync.cfg, server), old(View(server)), DriverTick(now))
    {
      hide ReleaseDue;
      buffer.Tick(now);
      forall server
        ensures View(server) == Next(Env(sync.cfg, server), old(View(server)), DriverTick(now))
      {
        assert buffer.View(server) == ReleaseDue(sync.cfg, sync.View(server), old(buffer.View(server)), now);
      }
    }
  }
}
