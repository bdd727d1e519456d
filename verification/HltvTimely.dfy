/** Posts and replies under which every event is out in time across any number of changes of level on one map, and
    the instant by which each is. */
module HltvTimely {
  import opened Wrappers
  import opened HltvSync
  import opened HltvDelayBuffer
  import opened HltvPipeline
  import opened HltvLaws
  import opened HltvBoundary
  import opened HltvAccuracy
  import opened HltvLateness
  import opened HltvEpochs
  import opened HltvOrderly
  import opened HltvOverdue

  ghost predicate InOrderOfLevels(turn: nat -> real) { forall i: nat, j: nat :: i <= j ==> turn(i) <= turn(j) }

  /** While level `c` is current its posts come at most 30 s late, under no clock of a later level, and by `turn(c)`.
      By then the next level's first post has come too, with some post paired with a clock; and so has any reading of
      a later level adopted before it. A late post is of the level before the current one. */
  ghost predicate Prompt(w: World, turn: nat -> real, s: Server, a: Action) {
    var n, c := |s.accepted|, CurrentIn(w, s);
    match a
    case Deliver(e, now) =>
      && (!ComesLate(w, n) ==> now <= turn(c))
      && (w.index(n) == c ==>
            && !Ahead(w, c, OnlineBasis(s.sync))
            && e.tick.GetOr(0.0) >= GameTime(w.level(c), now) - TICK_RESET_THRESHOLD_S)
      && (Opens(w, n) ==> s.sync.lastEventClock.Some?)
      && (ComesLate(w, n) ==> w.index(n) == Previous(w, n))
    case SampleOk(status) => s.sync.inflight.Some? ==> exists u, j: nat :: ReadsInTime(w, turn, s, status, u, j)
    case _ => true
  }

  ghost predicate ReadsInTime(w: World, turn: nat -> real, s: Server, status: RconStatus, u: real, j: nat) {
    var c := CurrentIn(w, s);
    c <= j && ReadIn(w.level(j), s, status, u) && (j > c ==> u <= turn(c))
  }

  /** A later level shows, by its first post or by a reply that cannot have read the current one. */
  ghost predicate Turns(w: World, s: Server, a: Action) {
    match a
    case Deliver(_, _) => Opens(w, |s.accepted|)
    case SampleOk(status) => s.sync.inflight.Some? && forall u :: !ReadIn(CurrentLevel(w, s), s, status, u)
    case _ => false
  }

  /** And when a later level shows, nothing of a level before the current one is still queued. */
  ghost predicate Timely(w: World, turn: nat -> real, s: Server, a: Action) {
    Prompt(w, turn, s, a) && (Turns(w, s, a) ==> OnlyCurrent(w, s))
  }

  /** When the posts of each level have come. */
  ghost predicate PostedInv(w: World, turn: nat -> real, n: nat, accepted: seq<BufferedEvent>) {
    var c, p := Current(w, n), Previous(w, n);
    forall x :: x in accepted ==>
      && x.arrival < n
      && (IndexOf(w, x) == c ==>
            && x.enqueuedAt <= turn(c)
            && (x.enqueuedAt <= ArrivesBy(w.level(c), TICK_RESET_THRESHOLD_S, x)
                || (c > 0 && x.enqueuedAt <= turn(p))))
      && (IndexOf(w, x) != c ==> c > 0 && IndexOf(w, x) <= p && x.enqueuedAt <= turn(p) + STRAGGLER_WALL_WINDOW_MS)
  }

  /** The bases of the tail are of the level it is of, or an earlier one. */
  ghost predicate BasesInv(w: World, turn: nat -> real, c: nat, p: nat, s: ServerSync) {
    && !Ahead(w, c, s.lastEventClock)
    && (c == 0 ==> !Ahead(w, 0, s.resetBasis))
    && (c > 0 ==>
          && s.resetBasis.Some? && !Ahead(w, p, s.resetBasis)
          && s.lastBoundary.Some? && s.lastBoundary.value.at <= turn(p))
  }

  /** What is queued of an earlier level is of the one before, and the current one is near its tick. */
  ghost predicate QueuedInv(w: World, turn: nat -> real, c: nat, p: nat, q: seq<BufferedEvent>) {
    forall x :: x in q ==>
      IndexOf(w, x) == c || (c > 0 && IndexOf(w, x) == p && Near(w, turn, x, w.level(c)))
  }

  ghost predicate TimelyInv(w: World, turn: nat -> real, s: Server) {
    var c, p := CurrentIn(w, s), PreviousIn(w, s);
    && BasesInv(w, turn, c, p, s.sync) && QueuedInv(w, turn, c, p, s.buf.queue)
    && PostedInv(w, turn, |s.accepted|, s.accepted)
  }

  lemma AheadLess(w: World, i: nat, j: nat, basis: Option<ClockBasis>)
    requires i <= j && !Ahead(w, i, basis)
    ensures !Ahead(w, j, basis)
  {
  }

  // ---- Posts ----

  /** Detection gives the tail's bases one of three values. */
  lemma IngestBases(s: ServerSync, e: Event, now: real)
    ensures
      var r := OnIngestEvent(s, e, now);
      && (r.resetBasis == s.resetBasis || r.resetBasis == s.lastEventClock)
      && (r.lastEventClock == s.lastEventClock || r.lastEventClock == OnlineBasis(s))
  {
    hide OldEpochTick;
  }

  lemma OpeningKeepsBases(env: Env, w: World, turn: nat -> real, s: Server, e: Event, now: real)
    requires Sensible(env.cfg, w) && OrderInv(w, s) && TimelyInv(w, turn, s) && Opens(w, |s.accepted|)
    requires PostOk(w, s, e, now) && Timely(w, turn, s, Deliver(e, now))
    ensures BasesInv(w, turn, w.index(|s.accepted|), CurrentIn(w, s), OnIngestEvent(s.sync, e, now))
    ensures OnlineBasis(OnIngestEvent(s.sync, e, now)).None?
    ensures TailBasis(OnIngestEvent(s.sync, e, now)) == s.sync.lastEventClock
  {
    IngestVerdicts(env.cfg, w, s, e, now);
    AheadLess(w, CurrentIn(w, s), w.index(|s.accepted|), s.sync.lastEventClock);
    hide OnIngestEvent, PostOk, OrderInv, Sensible, Ahead, PostedInv, QueuedInv;
  }

  lemma LaterKeepsBases(env: Env, w: World, turn: nat -> real, s: Server, e: Event, now: real)
    requires Sensible(env.cfg, w) && OrderInv(w, s) && TimelyInv(w, turn, s) && !Opens(w, |s.accepted|)
    requires PostOk(w, s, e, now) && Timely(w, turn, s, Deliver(e, now))
    ensures BasesInv(w, turn, CurrentIn(w, s), PreviousIn(w, s), OnIngestEvent(s.sync, e, now))
  {
    IngestVerdicts(env.cfg, w, s, e, now);
    IngestBases(s.sync, e, now);
    hide OnIngestEvent, PostOk, OrderInv, Sensible, Ahead, PostedInv, QueuedInv, OnlyCurrent, GameTime;
  }

  lemma OpeningKeepsPosted(w: World, turn: nat -> real, s: Server, it: BufferedEvent)
    requires PostedInv(w, turn, |s.accepted|, s.accepted) && Opens(w, |s.accepted|) && InOrderOfLevels(turn)
    requires it.arrival == |s.accepted| && it.enqueuedAt <= turn(CurrentIn(w, s))
    requires forall x :: x in s.accepted ==> x.enqueuedAt <= it.enqueuedAt
    ensures PostedInv(w, turn, |s.accepted| + 1, s.accepted + [it])
  {
    var n, c := |s.accepted|, CurrentIn(w, s);
    assert turn(c) <= turn(w.index(n));
    PreviousBelow(w, n);
    hide InOrderOfLevels, ArrivesBy;
    forall x | x in s.accepted ensures IndexOf(w, x) <= c {
      IndexBelowCurrent(w, x.arrival, n);
    }
    assert Current(w, n + 1) == w.index(n) && Previous(w, n + 1) == c;
    hide Current, Previous;
  }

  lemma LaterKeepsPosted(w: World, turn: nat -> real, s: Server, it: BufferedEvent)
    requires PostedInv(w, turn, |s.accepted|, s.accepted) && !Opens(w, |s.accepted|) && it.arrival == |s.accepted|
    requires
      var n, c := |s.accepted|, CurrentIn(w, s);
      if ComesLate(w, n) then
        w.index(n) == Previous(w, n) && it.enqueuedAt <= turn(Previous(w, n)) + STRAGGLER_WALL_WINDOW_MS
      else
        it.enqueuedAt <= turn(c) && it.enqueuedAt <= ArrivesBy(w.level(c), TICK_RESET_THRESHOLD_S, it)
    ensures PostedInv(w, turn, |s.accepted| + 1, s.accepted + [it])
  {
    var n := |s.accepted|;
    assert Current(w, n + 1) == Current(w, n) && Previous(w, n + 1) == Previous(w, n);
    hide Current, Previous, ArrivesBy;
  }

  lemma DeliverKeepsQueued(env: Env, w: World, turn: nat -> real, s: Server, e: Event, now: real)
    requires Sensible(env.cfg, w) && OrderInv(w, s) && TimelyInv(w, turn, s) && QueueOrdered(s.buf.queue)
    requires PostOk(w, s, e, now) && Timely(w, turn, s, Deliver(e, now))
    ensures
      var n := |s.accepted|;
      QueuedInv(w, turn, Current(w, n + 1), Previous(w, n + 1), DeliverTo(env, s, e, now).buf.queue)
  {
    var n, c := |s.accepted|, CurrentIn(w, s);
    EnqueueLeaves(env, w, s, e, now);
    if Opens(w, n) {
      assert now <= turn(c) && OnlyCurrent(w, s);
      assert Current(w, n + 1) == w.index(n) && Previous(w, n + 1) == c;
      assert GameTime(LevelOf(w, n), now) <= GameTime(LevelOf(w, n), turn(c));
    } else {
      assert Current(w, n + 1) == c && Previous(w, n + 1) == Previous(w, n);
    }
    hide DeliverTo, PostOk, OrderInv, Sensible, BasesInv, PostedInv, Current, Previous, GameTime, QueueOrdered, Timely;
  }

  /** An orderly and timely post is dated as its level's posts are. */
  lemma PostIsTimely(w: World, turn: nat -> real, s: Server, e: Event, now: real, it: BufferedEvent)
    requires TimelyInv(w, turn, s) && InOrderOfLevels(turn)
    requires PostOk(w, s, e, now) && Timely(w, turn, s, Deliver(e, now))
    requires it.event == e && it.enqueuedAt == now && it.arrival == |s.accepted|
    ensures PostedInv(w, turn, |s.accepted| + 1, s.accepted + [it])
  {
    var n := |s.accepted|;
    PostFacts(w, s, e, now);
    PreviousBelow(w, n);
    hide PostOk, OpeningOk, InOrderOfLevels, QueuedInv, PostedInv, Ahead;
    if Opens(w, n) {
      OpeningKeepsPosted(w, turn, s, it);
    } else {
      LaterKeepsPosted(w, turn, s, it);
    }
  }

  lemma DeliverIsTimely(env: Env, w: World, turn: nat -> real, s: Server, e: Event, now: real)
    requires Sensible(env.cfg, w) && OrderInv(w, s) && QueueOrdered(s.buf.queue) && TimelyInv(w, turn, s)
    requires InOrderOfLevels(turn) && PostOk(w, s, e, now) && Timely(w, turn, s, Deliver(e, now))
    ensures TimelyInv(w, turn, DeliverTo(env, s, e, now))
  {
    var n := |s.accepted|;
    DeliverAccepts(env, s, e, now);
    DeliverKeepsQueued(env, w, turn, s, e, now);
    PostIsTimely(w, turn, s, e, now, Numbered(env, s, e, now));
    if Opens(w, n) {
      OpeningKeepsBases(env, w, turn, s, e, now);
      assert Current(w, n + 1) == w.index(n) && Previous(w, n + 1) == Current(w, n);
    } else {
      LaterKeepsBases(env, w, turn, s, e, now);
      assert Current(w, n + 1) == Current(w, n) && Previous(w, n + 1) == Previous(w, n);
    }
    hide DeliverTo, OnIngestEvent, PostOk, OrderInv, Sensible, Timely, BasesInv, QueuedInv, PostedInv, Current,
         Previous;
  }

  lemma DeliverDelaysNothing(env: Env, w: World, turn: nat -> real, s: Server, e: Event, now: real)
    requires Sensible(env.cfg, w) && OrderInv(w, s) && TimelyInv(w, turn, s)
    requires PostOk(w, s, e, now) && Timely(w, turn, s, Deliver(e, now))
    ensures !Delays(env, w, turn, s, Deliver(e, now))
  {
    var n, seen, it := |s.accepted|, OnIngestEvent(s.sync, e, now), Numbered(env, s, e, now);
    SameVerdict(w, s, e, now);
    IngestKeepsOnline(s.sync, e, now);
    assert e.tick.Some? && IndexOf(w, it) == w.index(n);
    if Opens(w, n) {
      OpeningVerdicts(w, s, e, now);
      OpeningKeepsBases(env, w, turn, s, e, now);
      forall x | x in s.buf.queue ensures !TooLong(w, turn, x, TailBasis(seen)) {
        NotAheadIsNotTooLong(w, turn, x, TailBasis(seen));
      }
      assert OnlineBasis(seen).None?;
      NotAheadIsNotTooLong(w, turn, it, OnlineBasis(seen));
    } else {
      LaterDelaysNothing(env, w, turn, s, e, now);
    }
    hide OldEpochTick, OnIngestEvent, TooLong, TailBasis, OnlineBasis, PostOk, OrderInv, Sensible, Timely, TimelyInv;
  }

  lemma LaterDelaysNothing(env: Env, w: World, turn: nat -> real, s: Server, e: Event, now: real)
    requires Sensible(env.cfg, w) && OrderInv(w, s) && TimelyInv(w, turn, s) && !Opens(w, |s.accepted|)
    requires PostOk(w, s, e, now) && Timely(w, turn, s, Deliver(e, now))
    ensures !Delays(env, w, turn, s, Deliver(e, now))
  {
    var n, c, seen, it := |s.accepted|, CurrentIn(w, s), OnIngestEvent(s.sync, e, now), Numbered(env, s, e, now);
    SameVerdict(w, s, e, now);
    LaterKeepsBases(env, w, turn, s, e, now);
    IngestVerdicts(env.cfg, w, s, e, now);
    PreviousBelow(w, n);
    assert e.tick.Some? && IndexOf(w, it) == w.index(n);
    if ComesLate(w, n) {
      LaterVerdicts(env.cfg, w, s, e, now);
      NotAheadIsNotTooLong(w, turn, it, TailBasis(seen));
    } else {
      CurrentUnderOnline(w, turn, s, e, now, it);
      if c == 0 {
        assert !Ahead(w, 0, TailBasis(seen));
        NotAheadIsNotTooLong(w, turn, it, TailBasis(seen));
        forall x | x in s.buf.queue ensures !TooLong(w, turn, x, TailBasis(seen)) {
          NotAheadIsNotTooLong(w, turn, x, TailBasis(seen));
        }
      } else {
        LaterVerdicts(env.cfg, w, s, e, now);
      }
    }
    hide OldEpochTick, OnIngestEvent, TooLong, TailBasis, OnlineBasis, PostOk, OrderInv, Sensible, Timely, TimelyInv;
  }

  lemma CurrentUnderOnline(w: World, turn: nat -> real, s: Server, e: Event, now: real, it: BufferedEvent)
    requires Timely(w, turn, s, Deliver(e, now)) && IndexOf(w, it) == w.index(|s.accepted|) == CurrentIn(w, s)
    ensures !TooLong(w, turn, it, OnlineBasis(OnIngestEvent(s.sync, e, now)))
  {
    IngestKeepsOnline(s.sync, e, now);
    hide OnIngestEvent;
    NotAheadIsNotTooLong(w, turn, it, OnlineBasis(s.sync));
  }

  // ---- Samples ----

  /** The tail's basis is not too long for what an emission may strand. */
  lemma TailIsTimely(w: World, turn: nat -> real, s: Server, x: BufferedEvent)
    requires TimelyInv(w, turn, s) && x in s.buf.queue && (CurrentIn(w, s) == 0 || IndexOf(w, x) < CurrentIn(w, s))
    ensures !TooLong(w, turn, x, TailBasis(s.sync))
  {
    NotAheadIsNotTooLong(w, turn, x, TailBasis(s.sync));
  }

  /** An emission that strands nothing of the current level, once it is not the first, delays nothing. */
  lemma EmissionDelaysNothing(w: World, turn: nat -> real, s: Server, sync: ServerSync)
    requires TimelyInv(w, turn, s) && sync == s.sync.(clock := sync.clock, inflight := sync.inflight)
    requires sync.clock.Some? && sync.clock.value.online && sync.clock.value.lastError == "" ==>
               !StrandsCurrent(w, s, sync.clock.value.basis.activeTime)
    ensures !EmissionDelays(w, turn, s.(sync := sync))
  {
    hide Stranded, TooLong, BasesInv, PostedInv;
    PreviousBelow(w, |s.accepted|);
    if sync.clock.Some? && sync.clock.value.online && sync.clock.value.lastError == "" {
      forall x | x in s.buf.queue && Stranded(x, sync.clock.value.basis.activeTime)
        ensures !TooLong(w, turn, x, TailBasis(sync))
      {
        TailIsTimely(w, turn, s, x);
      }
    }
  }

  lemma InTimeOfCurrent(w: World, turn: nat -> real, s: Server, status: RconStatus) returns (u: real, j: nat)
    requires s.sync.inflight.Some? && !Turns(w, s, SampleOk(status))
    ensures ReadsInTime(w, turn, s, status, u, j) && j == CurrentIn(w, s)
  {
    hide ReadIn;
    j := CurrentIn(w, s);
    u :| ReadIn(w.level(j), s, status, u);
  }

  /** What a timely reply leaves queued does not wait for it. */
  lemma ReplyIsTimely(w: World, turn: nat -> real, s: Server, status: RconStatus, x: BufferedEvent)
    requires Described(w, s.sync) && s.sync.inflight.Some? && TimelyInv(w, turn, s)
    requires Timely(w, turn, s, SampleOk(status)) && x in s.buf.queue && !Stranded(x, status.activeTime)
    ensures !TooLong(w, turn, x, OnlineBasis(HltvSync.SampleOk(s.sync, status)))
  {
    hide BasesInv, PostedInv;
    var c := CurrentIn(w, s);
    var u, j: nat :| ReadsInTime(w, turn, s, status, u, j);
    if !OnlyCurrent(w, s) {
      u, j := InTimeOfCurrent(w, turn, s, status);
    }
    ReadingIsAccurate(w.level(j), s, status, u);
    if j > c {
      assert IndexOf(w, x) == c;
      assert status.activeTime <= GameTime(w.level(j), u) <= GameTime(w.level(j), turn(c));
      assert Near(w, turn, x, w.level(j));
    }
    hide Accurate, ReadIn, Current, Previous, GameTime;
  }

  lemma SampleDelaysNothing(env: Env, w: World, turn: nat -> real, s: Server, a: Action)
    requires Lifelike(w, s) && OrderInv(w, s) && TimelyInv(w, turn, s) && !a.Deliver?
    requires Orderly(w, s, a) && Timely(w, turn, s, a)
    ensures !Delays(env, w, turn, s, a)
  {
    hide TimelyInv, OrderInv, Described, EmissionDelays, TooLong, StrandsCurrent, ReplyOk, Stranded;
    match a
    case SampleOk(status) =>
      if s.sync.inflight.Some? {
        ReplyStrandsNothing(w, s, status);
        EmissionDelaysNothing(w, turn, s, HltvSync.SampleOk(s.sync, status));
        forall x | x in s.buf.queue && !Stranded(x, status.activeTime)
          ensures !TooLong(w, turn, x, OnlineBasis(HltvSync.SampleOk(s.sync, status)))
        {
          ReplyIsTimely(w, turn, s, status, x);
        }
      }
    case SampleFail(message) =>
      if s.sync.inflight.Some? {
        EmissionDelaysNothing(w, turn, s, HltvSync.SampleFail(env.cfg, s.sync, message));
      }
    case Calibrate(offsetMs) => EmissionDelaysNothing(w, turn, s, SetCalibration(s.sync, offsetMs));
    case StartSample(_, _) =>
    case DriverTick(_) =>
  }

  lemma OthersAreTimely(env: Env, w: World, turn: nat -> real, s: Server, a: Action)
    requires TimelyInv(w, turn, s) && !a.Deliver?
    ensures TimelyInv(w, turn, Next(env, s, a))
  {
    OthersKeepBases(env, s, a);
    hide Next, Ahead, Near, PostedInv, Current, Previous;
  }

  /** Nothing but a delivery touches the bases of the old tail, or adds to the queue. */
  lemma OthersKeepBases(env: Env, s: Server, a: Action)
    requires !a.Deliver?
    ensures var r := Next(env, s, a);
      && r.sync == s.sync.(clock := r.sync.clock, inflight := r.sync.inflight)
      && r.accepted == s.accepted && forall x :: x in r.buf.queue ==> x in s.buf.queue
  {
    hide EmitClock, ReleaseDue;
    match a
    case StartSample(_, _) =>
    case SampleOk(status) => EmitThins(env, s.(sync := HltvSync.SampleOk(s.sync, status)));
    case SampleFail(message) => EmitThins(env, s.(sync := HltvSync.SampleFail(env.cfg, s.sync, message)));
    case Calibrate(offsetMs) => EmitThins(env, s.(sync := SetCalibration(s.sync, offsetMs)));
    case DriverTick(now) => DriverThins(env, s, now);
  }

  lemma TimelyStep(env: Env, w: World, turn: nat -> real, s: Server, a: Action)
    requires Sensible(env.cfg, w) && Lifelike(w, s) && OrderInv(w, s) && QueueInv(s) && InOrderOfLevels(turn)
    requires TimelyInv(w, turn, s) && Orderly(w, s, a) && Timely(w, turn, s, a) && Worldly(w, s, a)
    ensures TimelyInv(w, turn, Next(env, s, a)) && !Delays(env, w, turn, s, a) && AllLived(w, s, a)
  {
    hide DeliverTo, Delays, Timely, TimelyInv, OrderInv, Described, Sensible, InOrderOfLevels;
    match a
    case Deliver(e, now) =>
      DeliverIsTimely(env, w, turn, s, e, now);
      DeliverDelaysNothing(env, w, turn, s, e, now);
    case _ =>
      OthersAreTimely(env, w, turn, s, a);
      SampleDelaysNothing(env, w, turn, s, a);
  }

  ghost predicate AllTimely(w: World, turn: nat -> real, states: seq<Server>, acts: seq<Action>, k: nat) {
    k <= |acts| < |states|
    && forall i :: 0 <= i < k ==> Orderly(w, states[i], acts[i]) && Timely(w, turn, states[i], acts[i])
  }

  lemma {:induction false} RunIsTimely(
      env: Env, w: World, turn: nat -> real, states: seq<Server>, acts: seq<Action>, k: nat)
    requires RunsFromStart(env, states, acts) && Sensible(env.cfg, w) && FromFirst(w) && InOrderOfLevels(turn)
    requires AllTimely(w, turn, states, acts, k)
    ensures TimelyInv(w, turn, states[k])
    ensures forall i :: 0 <= i < k ==> AllLived(w, states[i], acts[i]) && !Delays(env, w, turn, states[i], acts[i])
  {
    hide Next, Timely, Orderly, Delays, FromFirst, Worldly, OrderInv, CleanInv, DrainedOld, Cause, Sensible,
         InOrderOfLevels;
    if k > 0 {
      RunIsTimely(env, w, turn, states, acts, k - 1);
      RunIsOrderly(env, w, states, acts, k);
      RunIsOrderly(env, w, states, acts, k - 1);
      RunKeepsQueue(env, states, acts, k - 1);
      CleanIsLifelike(w, states[k - 1]);
      TimelyStep(env, w, turn, states[k - 1], acts[k - 1]);
    }
  }

  // ---- Each event by its instant ----

  /** An event of the current level: a hold past the latest its post could come, but no sooner than two minutes and a
      hold past the turn to the level; one of an earlier level: by the latter. Under a clock of a later level, or
      with the first level's tail draining, no sooner than 30 s and a hold past the turn from the current level. */
  ghost function OutBy(cfg: Config, w: World, turn: nat -> real, s: Server, it: BufferedEvent): real {
    var c, p := CurrentIn(w, s), PreviousIn(w, s);
    var own := if IndexOf(w, it) == c then ArrivesBy(w.level(c), TICK_RESET_THRESHOLD_S, it) else turn(p);
    var settled := if c > 0 then Longer(own, turn(p) + STRAGGLER_WALL_WINDOW_MS) else own;
    var turned := if Ahead(w, c, OnlineBasis(s.sync)) || (c == 0 && s.buf.draining != [])
                  then Longer(settled, turn(c) + TICK_RESET_THRESHOLD_S * 1000.0) else settled;
    turned + HoldMs(cfg)
  }

  /** When an event held now is due. */
  ghost function HeldBy(cfg: Config, w: World, turn: nat -> real, s: Server, x: BufferedEvent): real {
    var c := CurrentIn(w, s);
    if IndexOf(w, x) == c && !Ahead(w, c, OnlineBasis(s.sync)) && (c > 0 || s.buf.draining == [])
    then x.enqueuedAt + HoldMs(cfg)
    else HeldUntil(cfg, w, turn, x)
  }

  lemma DrainIsOfEnded(w: World, s: Server, x: DrainItem)
    requires Conserved(s) && DrainedOld(w, s) && x in s.buf.draining
    ensures IndexOf(w, x.item) == 0 || IndexOf(w, x.item) < CurrentIn(w, s)
  {
    assert x in multiset(s.buf.draining) && x in multiset(s.drained);
  }

  lemma HeldIsDue(cfg: Config, w: World, turn: nat -> real, s: Server)
    requires Sensible(cfg, w) && LongHoldInv(cfg, w, turn, s) && Conserved(s) && DrainedOld(w, s)
    ensures forall y :: y in s.buf.queue ==> DueAt(cfg, s.sync, y) <= HeldBy(cfg, w, turn, s, y)
    ensures forall y :: y in s.buf.draining ==> y.releaseAt <= HeldBy(cfg, w, turn, s, y.item)
  {
    hide Sensible, Conserved, DrainedOld, DueAt, HeldUntil, HoldMs, TooLong, Dated, Described;
    forall y | y in s.buf.queue ensures DueAt(cfg, s.sync, y) <= HeldBy(cfg, w, turn, s, y) {
      DueLateExactlyWhen(cfg, w, turn, s.sync, y);
      if !Ahead(w, IndexOf(w, y), OnlineBasis(s.sync)) {
        DueInHold(cfg, w, s.sync, y);
      }
    }
    forall y | y in s.buf.draining ensures y.releaseAt <= HeldBy(cfg, w, turn, s, y.item) {
      DrainIsOfEnded(w, s, y);
    }
  }

  /** Whatever stands in front of an event at a driver tick is due by the event's own instant. */
  lemma FrontIsDue(cfg: Config, w: World, turn: nat -> real, s: Server, x: BufferedEvent, it: BufferedEvent)
    requires TimelyInv(w, turn, s) && InOrderOfLevels(turn) && x in s.accepted && it in s.buf.queue
    requires IndexOf(w, x) == CurrentIn(w, s) && (CurrentIn(w, s) > 0 || s.buf.draining == []) ==>
               NumericTick(x) <= NumericTick(it)
    ensures HeldBy(cfg, w, turn, s, x) <= OutBy(cfg, w, turn, s, it)
  {
    var c, p := CurrentIn(w, s), PreviousIn(w, s);
    PreviousBelow(w, |s.accepted|);
    assert IndexOf(w, x) <= p ==> turn(IndexOf(w, x)) <= turn(p);
    hide InOrderOfLevels, HoldMs, Ahead, Current, Previous, BasesInv;
    if IndexOf(w, it) != c {
      assert Near(w, turn, it, w.level(c));
      assert ArrivesBy(w.level(c), TICK_RESET_THRESHOLD_S, it) <= turn(p) + 60000.0;
    }
  }

  lemma FrontTick(w: World, s: Server, r: Server, now: real, env: Env, x: BufferedEvent, it: BufferedEvent)
    requires Conserved(s) && DrainedOld(w, s) && r == Next(env, s, DriverTick(now)) && InFrontOf(r.buf, x, it)
    requires IndexOf(w, x) == CurrentIn(w, s) && (CurrentIn(w, s) > 0 || s.buf.draining == [])
    ensures NumericTick(x) <= NumericTick(it)
  {
    var n := DueCount(s.buf.draining, now);
    assert r.buf.draining == s.buf.draining[n..];
    if x in Items(r.buf.draining) {
      var i :| 0 <= i < |r.buf.draining| && r.buf.draining[i].item == x;
      assert r.buf.draining[i] == s.buf.draining[n + i];
      DrainIsOfEnded(w, s, s.buf.draining[n + i]);
      assert false;
    }
  }

  /** Bounded lateness of every event, across any number of changes of level on one map: under orderly and timely
      posts and replies, each has fired by any driver tick at or past its instant. */
  lemma FiresInTimeAcrossBoundaries(env: Env, w: World, turn: nat -> real, states: seq<Server>, acts: seq<Action>,
                                    k: nat, it: BufferedEvent)
    requires RunsFromStart(env, states, acts) && Sensible(env.cfg, w) && FromFirst(w) && InOrderOfLevels(turn)
    requires AllTimely(w, turn, states, acts, k) && k < |acts|
    requires acts[k].DriverTick? && it in states[k].accepted
    requires OutBy(env.cfg, w, turn, states[k], it) <= acts[k].now
    ensures it in FiredItems(states[k + 1].buf.fired)
  {
    hide Next, AllLived, Delays, Sensible, FromFirst, InOrderOfLevels, LongHoldInv, Conserved, DrainedOld, OrderInv,
         CleanInv, DueAt, HeldBy, OutBy, TimelyInv, Orderly, Timely;
    var s := states[k];
    RunIsTimely(env, w, turn, states, acts, k);
    RunIsOrderly(env, w, states, acts, k);
    RunConserves(env, states, acts, k);
    RunInTime(env, w, turn, states, acts, k);
    HeldIsDue(env.cfg, w, turn, s);
    OwnIsDue(env.cfg, w, turn, s, it);
    var x := FiresUnlessBehind(env, states, acts, k, (y: BufferedEvent) => HeldBy(env.cfg, w, turn, s, y), it);
    if it !in FiredItems(states[k + 1].buf.fired) {
      assert states[k + 1] == Next(env, s, DriverTick(acts[k].now));
      DriverThins(env, s, acts[k].now);
      if IndexOf(w, x) == CurrentIn(w, s) && (CurrentIn(w, s) > 0 || s.buf.draining == []) {
        FrontTick(w, s, states[k + 1], acts[k].now, env, x, it);
      }
      FrontIsDue(env.cfg, w, turn, s, x, it);
      assert false;
    }
  }

  /** Its own instant is past too, wherever it is. */
  lemma OwnIsDue(cfg: Config, w: World, turn: nat -> real, s: Server, it: BufferedEvent)
    requires TimelyInv(w, turn, s) && InOrderOfLevels(turn) && it in s.accepted
    ensures HeldBy(cfg, w, turn, s, it) <= OutBy(cfg, w, turn, s, it)
  {
    var p := PreviousIn(w, s);
    PreviousBelow(w, |s.accepted|);
    assert IndexOf(w, it) <= p ==> turn(IndexOf(w, it)) <= turn(p);
    hide InOrderOfLevels, HoldMs, Ahead, Current, Previous, BasesInv, QueuedInv;
  }
}
