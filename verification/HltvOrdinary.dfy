/** An ordinary run through three levels: every step meets the conditions under which the theorems across changes of
    level hold, and by them each event has fired. */
module HltvOrdinary {
  import opened Wrappers
  import opened HltvSync
  import opened HltvDelayBuffer
  import opened HltvPipeline
  import opened HltvLaws
  import opened HltvBoundary
  import opened HltvAccuracy
  import opened HltvEpochs
  import opened HltvOrderly
  import opened HltvOverdue
  import opened HltvTimely
  import opened HltvSequence
  import opened HltvFailures

  /** Levels are loaded at 0, 100 s and 160 s; posts 0 and 1 are of the first, 2 and 3 of the second. */
  const ROUND := W.(index := (n: nat) => if n < 2 then 0 else if n < 4 then 1 else 2)

  const TURN: nat -> real := j => if j == 0 then 105000.0 else if j == 1 then 164000.0 else 500000.0

  ghost predicate Goes(s: Server, a: Action) {
    Orderly(ROUND, s, a) && Timely(ROUND, TURN, s, a) && TurnsCleanly(ROUND, true, s, a)
  }

  /** A run from the start that meets every condition. */
  ghost predicate Ordinary(states: seq<Server>, acts: seq<Action>) {
    && RunsFromStart(ENV, states, acts) && |states| == |acts| + 1
    && forall i :: 0 <= i < |acts| ==> Goes(states[i], acts[i])
  }

  ghost predicate GoesTo(s: Server) { exists states, acts :: Ordinary(states, acts) && states[|acts|] == s }

  lemma GoesOn(s: Server, a: Action)
    requires GoesTo(s) && Goes(s, a)
    ensures GoesTo(Next(ENV, s, a))
  {
    hide Next, Goes;
    var states, acts :| Ordinary(states, acts) && states[|acts|] == s;
    RunExtends(ENV, states, acts, a);
    hide RunsFromStart;
    assert Ordinary(states + [Next(ENV, s, a)], acts + [a]);
  }

  lemma KeepsQueue(s: Server)
    requires GoesTo(s)
    ensures QueueInv(s)
  {
    hide Next, Goes;
    var states, acts :| Ordinary(states, acts) && states[|acts|] == s;
    RunKeepsQueue(ENV, states, acts, |acts|);
  }

  lemma RoundIsSensible()
    ensures Sensible(CFG, ROUND) && WellApart(CFG, ROUND) && FromFirst(ROUND) && InOrderOfLevels(TURN)
  {
    forall i: nat, j: nat | i < j ensures Apart(CFG, ROUND.level(i), ROUND.level(j)) {}
  }

  lemma RoundLevels()
    ensures ROUND.level(0) == LoadedAt(0.0) && ROUND.level(1) == LoadedAt(100000.0)
    ensures ROUND.level(2) == LoadedAt(160000.0) && ROUND.mapName == "a"
    ensures forall n: nat :: ROUND.index(n) == if n < 2 then 0 else if n < 4 then 1 else 2
    ensures TURN(0) == 105000.0 && TURN(1) == 164000.0
    ensures Current(ROUND, 0) == Current(ROUND, 1) == Current(ROUND, 2) == 0
    ensures Current(ROUND, 3) == Current(ROUND, 4) == 1 && Current(ROUND, 5) == 2 && Previous(ROUND, 5) == 1
  {
    assert Current(ROUND, 0) == 0;
    assert Current(ROUND, 1) == 0;
    assert Current(ROUND, 2) == 0;
    assert Current(ROUND, 3) == 1;
    assert Current(ROUND, 4) == 1;
  }

  ghost predicate Is(s: Server, sync: ServerSync, queue: seq<BufferedEvent>, accepted: seq<BufferedEvent>) {
    GoesTo(s) && s.sync == sync && s.buf.queue == queue && s.buf.draining == [] && s.accepted == accepted
  }

  // ---- The first level ----

  lemma First() returns (r: Server)
    ensures Is(r, SEEN, [ITEM0], [ITEM0])
  {
    RoundLevels();
    var a := Deliver(Tick(10.0), 10000.0);
    assert Ordinary([INIT], []);
    hide ROUND, TURN, Current, Previous;
    GoesOn(INIT, a);
    r := Next(ENV, INIT, a);
  }

  lemma Asked(s: Server) returns (r: Server)
    requires Is(s, SEEN, [ITEM0], [ITEM0])
    ensures Is(r, SAMPLED, [ITEM0], [ITEM0])
  {
    RoundLevels();
    var status := RconStatus(60.0, 10.0, "a");
    hide ROUND, TURN, Current, Previous, GoesTo;
    assert ReplyReads(ROUND, s, status, 10000.0, 0) && ReadsInTime(ROUND, TURN, s, status, 10000.0, 0);
    GoesOn(s, SampleOk(status));
    r := Next(ENV, s, SampleOk(status));
  }

  lemma Second(s: Server) returns (r: Server)
    requires Is(s, SAMPLED, [ITEM0], [ITEM0])
    ensures Is(r, PLAYED, [ITEM0, ITEM1], [ITEM0, ITEM1])
  {
    RoundLevels();
    var a := Deliver(Tick(40.0), 40000.0);
    hide ROUND, TURN, Current, Previous, GoesTo;
    assert Accurate(ROUND.level(0), CLOCK);
    PlayDetected();
    QueuesBehind(s, PLAYED, ITEM0, 40.0, 40000.0);
    GoesOn(s, a);
    r := Next(ENV, s, a);
  }

  lemma Shown(s: Server) returns (r: Server)
    requires Is(s, PLAYED, [ITEM0, ITEM1], [ITEM0, ITEM1])
    ensures Is(r, PLAYED, [], [ITEM0, ITEM1])
  {
    hide ReadyCount, QueueInv, GoesTo;
    KeepsQueue(s);
    var a := DriverTick(100000.0);
    assert DueAt(CFG, s.sync, ITEM0) <= 100000.0 && DueAt(CFG, s.sync, ITEM1) <= 100000.0;
    DriverTickReleases(ENV, s, 100000.0);
    GoesOn(s, a);
    r := Next(ENV, s, a);
  }

  // ---- The second ----

  lemma Turned(s: Server) returns (r: Server)
    requires Is(s, PLAYED, [], [ITEM0, ITEM1])
    ensures Is(r, BOUND, [ITEM2], [ITEM0, ITEM1, ITEM2])
  {
    RoundLevels();
    var a := Deliver(Tick(5.0), 105000.0);
    hide ROUND, TURN, Current, Previous, GoesTo;
    ResetDetected();
    QueuesAlone(s, BOUND);
    GoesOn(s, a);
    r := Next(ENV, s, a);
  }

  lemma Answered(s: Server) returns (r: Server)
    requires Is(s, BOUND, [ITEM2], [ITEM0, ITEM1, ITEM2])
    ensures Is(r, RESYNCED, [ITEM2], [ITEM0, ITEM1, ITEM2])
  {
    RoundLevels();
    var status := RconStatus(60.0, 5.0, "a");
    hide ROUND, TURN, Current, Previous, GoesTo;
    assert ReplyReads(ROUND, s, status, 105000.0, 1) && ReadsInTime(ROUND, TURN, s, status, 105000.0, 1);
    GoesOn(s, SampleOk(status));
    r := Next(ENV, s, SampleOk(status));
  }

  lemma Played(s: Server) returns (r: Server)
    requires Is(s, RESYNCED, [ITEM2], [ITEM0, ITEM1, ITEM2])
    ensures Is(r, RESUMED, [ITEM2, ITEM3], [ITEM0, ITEM1, ITEM2, ITEM3])
  {
    RoundLevels();
    var a := Deliver(Tick(40.0), 140000.0);
    hide ROUND, TURN, Current, Previous, GoesTo;
    assert Accurate(ROUND.level(1), NEW_CLOCK);
    NewPlayDetected();
    QueuesBehind(s, RESUMED, ITEM2, 40.0, 140000.0);
    GoesOn(s, a);
    r := Next(ENV, s, a);
  }

  // ---- The third ----

  const ITEM4 := Item(4, 4.0, 164000.0)
  const ALL := [ITEM0, ITEM1, ITEM2, ITEM3, ITEM4]
  const TURNED := ServerSync(true, Some(HltvClock(NEW_CLOCK, "a", false, "")), Some(Sampling(164000.0, "tick_reset")),
                             Some(4.0), Some(NEW_CLOCK), Some(NEW_CLOCK), Some(Boundary(164000.0, 40.0)))

  lemma ThirdDetected()
    ensures OnIngestEvent(RESUMED, Tick(4.0), 164000.0) == TURNED && !OldEpochTick(TURNED, 4.0, 164000.0)
  {
  }

  lemma TurnedAgain(s: Server) returns (r: Server)
    requires Is(s, RESUMED, [ITEM2, ITEM3], [ITEM0, ITEM1, ITEM2, ITEM3])
    ensures GoesTo(r) && r.sync == TURNED && r.buf.queue == [ITEM4] && r.accepted == ALL
  {
    RoundLevels();
    var a := Deliver(Tick(4.0), 164000.0);
    hide ROUND, TURN, Current, Previous, GoesTo;
    assert Accurate(ROUND.level(1), NEW_CLOCK);
    ThirdDetected();
    GoesOn(s, a);
    r := Next(ENV, s, a);
    hide OnIngestEvent, OldEpochTick, DrainTail, Goes;
    assert TailFarAbove(s.buf.queue, 4.0);
  }

  lemma AnsweredAgain(s: Server) returns (r: Server)
    requires GoesTo(s) && s.sync == TURNED && s.buf.queue == [ITEM4] && s.accepted == ALL
    ensures GoesTo(r) && OnlineBasis(r.sync) == Some(ClockBasis(4.0, 164000.0, 60.0, 0.0)) && r.accepted == ALL
  {
    RoundLevels();
    var status := RconStatus(60.0, 4.0, "a");
    hide ROUND, TURN, Current, Previous, GoesTo;
    assert ReplyReads(ROUND, s, status, 164000.0, 2) && ReadsInTime(ROUND, TURN, s, status, 164000.0, 2);
    GoesOn(s, SampleOk(status));
    r := Next(ENV, s, SampleOk(status));
  }

  /** By a tick at 500 s the lateness bound of every event is past. */
  lemma AllOut(s: Server)
    requires OnlineBasis(s.sync) == Some(ClockBasis(4.0, 164000.0, 60.0, 0.0)) && s.accepted == ALL
    ensures forall it :: it in ALL ==> OutBy(CFG, ROUND, TURN, s, it) <= 500000.0
  {
    RoundLevels();
    hide ROUND, TURN, Current, Previous;
    assert Accurate(ROUND.level(2), OnlineBasis(s.sync).value);
  }

  lemma ThreeLevels() returns (s: Server)
    ensures GoesTo(s) && OnlineBasis(s.sync) == Some(ClockBasis(4.0, 164000.0, 60.0, 0.0)) && s.accepted == ALL
  {
    hide GoesTo, Is, ALL, OnlineBasis;
    s := First();
    s := Asked(s);
    s := Second(s);
    s := Shown(s);
    s := Turned(s);
    s := Answered(s);
    s := Played(s);
    s := TurnedAgain(s);
    s := AnsweredAgain(s);
  }

  lemma GoesIsTimely(states: seq<Server>, acts: seq<Action>)
    requires Ordinary(states, acts) && |acts| > 0
    ensures AllTimely(ROUND, TURN, states, acts, |acts| - 1)
  {
    hide Orderly, Timely, TurnsCleanly, ROUND, TURN, RunsFromStart;
  }

  lemma TickGoes(s: Server, now: real)
    ensures Goes(s, DriverTick(now))
  {
  }

  /** A last tick at 500 s. */
  lemma LastTick(s: Server) returns (states: seq<Server>, acts: seq<Action>)
    requires GoesTo(s)
    ensures Ordinary(states, acts) && |acts| > 0 && acts[|acts| - 1] == DriverTick(500000.0) && states[|acts| - 1] == s
  {
    hide Goes, Next;
    var before, done :| Ordinary(before, done) && before[|done|] == s;
    var a := DriverTick(500000.0);
    RunExtends(ENV, before, done, a);
    TickGoes(s, 500000.0);
    states, acts := before + [Next(ENV, s, a)], done + [a];
    hide RunsFromStart;
  }

  /** The run: two changes of level, each seen by a tick reset and answered by the forced sample, the second with the
      whole of the level still queued. Every step meets the conditions of `NeverEarlyAcrossBoundaries`,
      `FiresInTimeAcrossBoundaries` and `LevelsFireInOrder`, and so all five events of its three levels fire. */
  lemma OrdinaryRun() returns (states: seq<Server>, acts: seq<Action>)
    ensures Sensible(CFG, ROUND) && WellApart(CFG, ROUND) && FromFirst(ROUND) && InOrderOfLevels(TURN)
    ensures Ordinary(states, acts) && |acts| > 0 && states[|acts| - 1].accepted == ALL
    ensures CurrentIn(ROUND, states[|acts| - 1]) == 2
    ensures forall it :: it in ALL ==> it in FiredItems(states[|acts|].buf.fired)
  {
    RoundIsSensible();
    RoundLevels();
    hide ROUND, TURN, Goes, Next, GoesTo, OnlineBasis, Sensible, WellApart, InOrderOfLevels, FromFirst, OutBy;
    var s := ThreeLevels();
    AllOut(s);
    states, acts := LastTick(s);
    assert |ALL| == 5;
    hide ALL, FiredItems;
    GoesIsTimely(states, acts);
    forall it | it in ALL ensures it in FiredItems(states[|acts|].buf.fired) {
      FiresInTimeAcrossBoundaries(ENV, ROUND, TURN, states, acts, |acts| - 1, it);
    }
  }
}
