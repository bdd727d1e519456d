/** Completeness of the estimator: a half played at a steady pace is followed tick by tick, through slots that
    stay silent because nobody holds a point away from its default, captures, and the scores captures pay. */
module ScoreTickSteady {
  import opened Wrappers
  import opened ScoreTick
  import opened ScoreTickLaws

  /** Where the game's clock stands: the last tick, the period in force, how many slots have passed in silence
      since, and how many of the latest of them were first looked back over with something held. */
  datatype Pace = Pace(at: real, period: real, silent: nat, missed: nat)

  /** How far a half has come: its opening score seen, a first tick seen, or the pace known. */
  datatype Stage = Opened | First(tick: Frame) | Known(pace: Pace)

  /** The gain from one score to the next, as the estimator judges it. */
  function Rise(f: Frame, g: Frame): Frame { g.(allies := g.allies - f.allies, axis := g.axis - f.axis) }

  /** An ordinary gain: some team scored, none lost, and none by as much as a bonus. */
  predicate Ordinary(f: Frame) { Gained(f) && f.allies < TICK_CAPOUT_FLOOR && f.axis < TICK_CAPOUT_FLOOR }

  predicate IsTick(f: Frame) { Ordinary(f) && IsOnGrid(f.gt) }

  /** What is not a tick: a capture, a score repeated, or a gain off the half-second grid, as a capture pays. */
  predicate IsAside(last: Frame, e: Entry) {
    e.Cap?
    || (var f := Rise(last, e.frame);
        (f.allies == 0 && f.axis == 0) || (Ordinary(f) && !IsOnGrid(f.gt)))
  }

  function SlotAt(p: Pace, n: int): real { p.at + n as real * p.period }

  /** At `gt` the first `n` slots since the last tick have passed and no more; and whoever is the first to look
      back over some of them, by more than the grace, reports nothing held, or else, not twice running, passes a
      single slot. */
  predicate Passes(p: Pace, n: nat, gt: real, held: nat) {
    && p.silent <= n <= TICK_MAX_BLIND_ROLL
    && gt <= SlotAt(p, n + 1) + TICK_OVERRUN_GRACE
    && (p.silent < n ==> gt > SlotAt(p, n) + TICK_OVERRUN_GRACE)
    && (p.silent < n && held != 0 ==> n == p.silent + 1 && p.missed == 0)
  }

  /** The pace once `n` slots have passed. */
  function Passed(p: Pace, n: nat, held: nat): Pace {
    p.(silent := n, missed := if p.silent < n then (if held == 0 then 0 else 1) else p.missed)
  }

  /** A regular entry: the first two ticks are clear of captures and a plausible period apart, and from then on a
      tick comes within the phase tolerance of one period past the slots that passed in silence. */
  predicate Regular(stage: Stage, last: Frame, e: Entry, n: nat) {
    match stage
    case Opened => e.Score? && IsTick(Rise(last, e.frame)) && !e.frame.capDirty
    case First(tick) =>
      || IsAside(last, e)
      || (IsTick(Rise(last, e.frame)) && !e.frame.capDirty && TICK_PERIOD_MIN <= e.Gt() - tick.gt <= TICK_PERIOD_MAX)
    case Known(p) =>
      && Passes(p, n, e.Gt(), e.Held())
      && (IsAside(last, e)
          || (var period := e.Gt() - SlotAt(p, n);
              IsTick(Rise(last, e.frame)) && period >= TICK_PERIOD_MIN && Abs(period - p.period) <= TICK_PHASE_TOL))
  }

  function Advance(stage: Stage, last: Frame, e: Entry, n: nat): Stage {
    match stage
    case Opened => if e.Score? then First(Rise(last, e.frame)) else stage
    case First(tick) => if IsAside(last, e) then stage else Known(Pace(e.Gt(), e.Gt() - tick.gt, 0, 0))
    case Known(p) =>
      if IsAside(last, e) then Known(Passed(p, n, e.Held())) else Known(Pace(e.Gt(), e.Gt() - SlotAt(p, n), 0, 0))
  }

  /** A half so far: where it stands, the latest score, and the gains that were ticks. */
  datatype Half = Half(stage: Stage, last: Frame, awards: seq<Frame>)

  /** A half played entry by entry, `passed` saying how many silent slots each has behind it. */
  function Play(timeline: seq<Entry>, passed: seq<nat>): Half
    requires |passed| == |timeline| > 0 && timeline[0].Score?
  {
    var n := |timeline| - 1;
    var e := timeline[n];
    if n == 0 then Half(Opened, e.frame, [])
    else
      var h := Play(timeline[..n], passed[..n]);
      Half(Advance(h.stage, h.last, e, passed[n]),
           if e.Score? then e.frame else h.last,
           h.awards + Ticks(h, e))
  }

  /** The ticks an entry brings: the second tick confirms the first with it. */
  function Ticks(h: Half, e: Entry): seq<Frame> {
    if h.stage.Opened? || IsAside(h.last, e) then []
    else if h.stage.First? then [h.stage.tick, Rise(h.last, e.frame)]
    else [Rise(h.last, e.frame)]
  }

  /** A steady half: opened by a score, in time order, and regular from there on. */
  ghost predicate Steady(timeline: seq<Entry>, passed: seq<nat>) {
    && |passed| == |timeline| > 0
    && var n := |timeline| - 1;
       var e := timeline[n];
       if n == 0 then e.Score?
       else
         && Steady(timeline[..n], passed[..n]) && timeline[0].Score?
         && e.Half() == timeline[n - 1].Half() && e.Gt() >= timeline[n - 1].Gt()
         && var h := Play(timeline[..n], passed[..n]); Regular(h.stage, h.last, e, passed[n])
  }

  // ---- What the estimator makes of one entry ----

  lemma SlotStep(p: Pace, n: int)
    ensures SlotAt(p, n + 1) == SlotAt(p, n) + p.period
  {
    AddPeriod(n, p.period);
  }

  lemma {:induction false} SlotsAscend(p: Pace, n: int, m: int)
    requires n <= m && p.period > 0.0
    ensures SlotAt(p, n) <= SlotAt(p, m)
    decreases m - n
  {
    if n < m {
      SlotsAscend(p, n, m - 1);
      SlotStep(p, m - 1);
    }
  }

  lemma SameSlots(p: Pace, q: Pace, n: int)
    requires q.at == p.at && q.period == p.period
    ensures SlotAt(q, n) == SlotAt(p, n)
  {
  }

  function Waiting(p: Pace): Phase { Phase(SlotAt(p, p.silent), None, p.period, true, p.missed, p.silent) }

  /** The roll passes over exactly the silent slots. */
  lemma {:induction false} RollPasses(p: Pace, n: nat, gt: real, held: nat)
    requires p.period > 0.0 && p.missed <= 1 && Passes(p, n, gt, held)
    ensures Roll(Waiting(p), gt, held) == Waiting(Passed(p, n, held))
    decreases n - p.silent
  {
    hide SlotAt;
    SlotStep(p, p.silent);
    SameSlots(p, Passed(p, n, held), n);
    if p.silent < n {
      var q := Passed(p, p.silent + 1, held);
      SlotsAscend(p, p.silent + 1, n);
      SameSlots(p, q, n);
      SameSlots(p, q, n + 1);
      SameSlots(p, q, p.silent + 1);
      RollPasses(q, n, gt, held);
    }
  }

  lemma NearOne(d: real, period: real)
    requires period >= TICK_PERIOD_MIN && Abs(d - period) <= TICK_PHASE_TOL
    ensures Round(d / period) == 1
  {
    var q := d / period;
    assert q * period == d;
    if q >= 1.5 {
      Scale(1.5, q, period);
    } else if q < 0.5 {
      Scale(q, 0.5, period);
    }
  }

  /** What the estimator had reported when the half was entered, and the game time of its last capout. */
  datatype Base = Base(since: nat, rejected: nat, locks: nat, resetGt: real)

  function BaseOf(s: State): Base { Base(|s.ticks|, |s.rejected|, |s.locks|, s.lastResetGt) }

  /** The entry is of another half, or game time has gone back: everything is reset. */
  predicate Enters(s: State, e: Entry) { e.Half() != s.half || e.Gt() < s.lastGt - 1.0 }

  /** The first gain comes no sooner than the restart window after the last capout, of whatever half. */
  predicate ClearsWindow(timeline: seq<Entry>, resetGt: real) {
    |timeline| >= 2 ==> timeline[1].Gt() - resetGt >= TICK_RESET_WINDOW
  }

  /** Only off-grid and repeated scores have been turned away. */
  ghost predicate OnlyAsides(rejected: seq<RejectedFrame>) {
    forall r :: r in rejected ==> r.reason == OffGrid || r.reason == Zero
  }

  /** What was reported since the half was entered. */
  ghost predicate Reported(s: State, h: Half, b: Base) {
    && s.since == b.since <= |s.ticks| && b.rejected <= |s.rejected|
    && Confirms(s.ticks[b.since..], h.awards) && OnlyAsides(s.rejected[b.rejected..])
    && |s.locks| == b.locks + if h.stage.Known? then 1 else 0
  }

  /** The estimator has followed the half so far. */
  ghost predicate Following(s: State, h: Half, b: Base) {
    && s.half == h.last.half && s.lastResetGt == b.resetGt && s.seeded
    && s.prevA == h.last.allies && s.prevX == h.last.axis
    && s.grid.ok && 0 <= s.grid.miss && Reported(s, h, b)
    && match h.stage
       case Opened => s.phase == NO_PHASE && s.grid.seen == 0 && s.grid.miss == 0
       case First(tick) => s.phase == NO_PHASE.(cand := Some(tick)) && s.grid.miss < s.grid.seen
       case Known(p) =>
         p.period >= TICK_PERIOD_MIN && p.missed <= 1 && s.grid.miss < s.grid.seen && s.phase == Waiting(p)
  }

  ghost predicate Confirms(ticks: seq<ConfirmedTick>, awards: seq<Frame>) {
    |ticks| == |awards| && forall i :: 0 <= i < |ticks| ==> ticks[i].award == awards[i]
  }

  /** The state a frame is judged in: rolled, its scores noted. */
  function Noted(s: State, e: Entry, phase: Phase): State {
    s.(lastGt := e.Gt(), phase := phase,
       prevA := if e.Score? then e.frame.allies else s.prevA, prevX := if e.Score? then e.frame.axis else s.prevX)
  }

  /** A capture only rolls. */
  lemma CaptureOnlyRolls(defaults: bool, s: State, e: Entry)
    requires e.Cap? && e.Half() == s.half && e.Gt() >= s.lastGt
    ensures Step(defaults, s, e) == Noted(s, e, Roll(s.phase, e.Gt(), e.Held()))
  {
  }

  /** Nothing short of judgement stops an ordinary gain, and a repeated score is turned away as such. */
  lemma ScoreIsJudged(defaults: bool, s: State, e: Entry, f: Frame)
    requires e.Score? && e.Half() == s.half && e.Gt() >= s.lastGt
    requires s.seeded && e.Gt() - s.lastResetGt >= TICK_RESET_WINDOW
    requires f == e.frame.(allies := e.frame.allies - s.prevA, axis := e.frame.axis - s.prevX)
    ensures
      var t := Noted(s, e, Roll(s.phase, e.Gt(), e.Held()));
      && (f.allies == 0 && f.axis == 0 ==> Step(defaults, s, e) == Reject(t, f, Zero))
      && (Ordinary(f) ==> Step(defaults, s, e) == Judge(defaults, t, f))
  {
    hide Judge, Roll, Reject;
  }

  lemma JudgeTurnsAway(defaults: bool, s: State, f: Frame)
    requires s.grid.ok && 0 <= s.grid.miss < s.grid.seen && !IsOnGrid(f.gt)
    ensures
      var r := Judge(defaults, s, f);
      && r == s.(grid := r.grid, rejected := s.rejected + [RejectedFrame(f.half, f.gt, f.allies, f.axis, OffGrid)])
      && r.grid.ok && 0 <= r.grid.miss < r.grid.seen
  {
    hide IsOnGrid, Confirm, BootstrapWith;
  }

  lemma JudgeSeeks(defaults: bool, s: State, f: Frame)
    requires s.grid.ok && 0 <= s.grid.miss && (s.grid.miss < s.grid.seen || s.grid.seen == 0 == s.grid.miss)
    requires IsOnGrid(f.gt) && !f.capDirty && !s.phase.locked
    requires s.phase.cand.Some? ==> TICK_PERIOD_MIN <= f.gt - s.phase.cand.value.gt <= TICK_PERIOD_MAX
    ensures
      var r := Judge(defaults, s, f);
      && r == s.(grid := r.grid, phase := r.phase, model := r.model, ticks := r.ticks, locks := r.locks)
      && r.grid.ok && 0 <= r.grid.miss < r.grid.seen
      && (if s.phase.cand.None? then r.phase == s.phase.(cand := Some(f)) && r.ticks == s.ticks && r.locks == s.locks
          else
            && r.phase == Phase(f.gt, None, f.gt - s.phase.cand.value.gt, true, 0, 0) && |r.locks| == |s.locks| + 1
            && |r.ticks| == |s.ticks| + 2 && s.ticks <= r.ticks
            && r.ticks[|s.ticks|].award == s.phase.cand.value && r.ticks[|s.ticks| + 1].award == f)
  {
    hide IsOnGrid, Learn;
  }

  lemma JudgeConfirms(defaults: bool, s: State, f: Frame)
    requires s.grid.ok && 0 <= s.grid.miss < s.grid.seen && IsOnGrid(f.gt)
    requires s.phase.locked && s.phase.period >= TICK_PERIOD_MIN
    requires Abs(f.gt - s.phase.anchor - s.phase.period) <= TICK_PHASE_TOL
    ensures
      var r := Judge(defaults, s, f);
      && r == s.(grid := r.grid, phase := r.phase, model := r.model, ticks := r.ticks)
      && r.grid.ok && 0 <= r.grid.miss < r.grid.seen
      && r.phase == s.phase.(period := f.gt - s.phase.anchor, anchor := f.gt, strikes := 0, blindRolls := 0)
      && |r.ticks| == |s.ticks| + 1 && s.ticks <= r.ticks && r.ticks[|s.ticks|].award == f
  {
    NearOne(f.gt - s.phase.anchor, s.phase.period);
    hide IsOnGrid, Learn, Round;
  }

  // ---- Following a steady half ----

  lemma MoreConfirmed(s: State, h: Half, b: Base, more: State, ticked: seq<Frame>)
    requires Reported(s, h, b) && s.ticks <= more.ticks && |more.ticks| == |s.ticks| + |ticked|
    requires forall i :: 0 <= i < |ticked| ==> more.ticks[|s.ticks| + i].award == ticked[i]
    ensures Confirms(more.ticks[b.since..], h.awards + ticked)
  {
    var n := |s.ticks|;
    forall i | 0 <= i < |more.ticks| - b.since ensures more.ticks[b.since..][i].award == (h.awards + ticked)[i] {
      if i < n - b.since {
        assert more.ticks[b.since + i] == s.ticks[b.since..][i];
      } else {
        assert more.ticks[b.since + i] == more.ticks[n + (b.since + i - n)];
      }
    }
  }

  lemma MoreRejected(s: State, h: Half, b: Base, rejected: RejectedFrame)
    requires Reported(s, h, b) && (rejected.reason == OffGrid || rejected.reason == Zero)
    ensures OnlyAsides((s.rejected + [rejected])[b.rejected..])
  {
    assert (s.rejected + [rejected])[b.rejected..] == s.rejected[b.rejected..] + [rejected];
  }

  /** Where the half stands after entry `e`. */
  function After(h: Half, e: Entry, n: nat): Half {
    Half(Advance(h.stage, h.last, e, n), if e.Score? then e.frame else h.last, h.awards + Ticks(h, e))
  }

  /** The state a regular score is judged in. */
  ghost predicate Ready(t: State, h: Half, e: Entry, n: nat, b: Base) {
    && e.Score? && t.half == e.frame.half && t.lastResetGt == b.resetGt && t.seeded
    && t.prevA == e.frame.allies && t.prevX == e.frame.axis
    && t.grid.ok && 0 <= t.grid.miss && Reported(t, h, b)
    && match h.stage
       case Opened => t.phase == NO_PHASE && t.grid.seen == 0 && t.grid.miss == 0
       case First(tick) => t.phase == NO_PHASE.(cand := Some(tick)) && t.grid.miss < t.grid.seen
       case Known(p) =>
         && p.period >= TICK_PERIOD_MIN && p.missed <= 1 && t.grid.miss < t.grid.seen
         && t.phase == Waiting(Passed(p, n, e.Held()))
  }

  lemma AsideFollows(defaults: bool, t: State, h: Half, e: Entry, n: nat, b: Base)
    requires Ready(t, h, e, n, b) && !h.stage.Opened? && IsAside(h.last, e)
    ensures
      var f := Rise(h.last, e.frame);
      Following(if f.allies == 0 && f.axis == 0 then Reject(t, f, Zero) else Judge(defaults, t, f), After(h, e, n), b)
  {
    var f := Rise(h.last, e.frame);
    assert h.awards + [] == h.awards;
    if f.allies == 0 && f.axis == 0 {
      MoreRejected(t, h, b, RejectedFrame(f.half, f.gt, f.allies, f.axis, Zero));
    } else {
      JudgeTurnsAway(defaults, t, f);
      MoreRejected(t, h, b, RejectedFrame(f.half, f.gt, f.allies, f.axis, OffGrid));
    }
    hide Judge, IsOnGrid, Confirms, SlotAt, Passes, OnlyAsides;
  }

  lemma TickFollows(defaults: bool, t: State, h: Half, e: Entry, n: nat, b: Base)
    requires Ready(t, h, e, n, b) && !IsAside(h.last, e) && Regular(h.stage, h.last, e, n)
    ensures Following(Judge(defaults, t, Rise(h.last, e.frame)), After(h, e, n), b)
  {
    var f := Rise(h.last, e.frame);
    var r := Judge(defaults, t, f);
    match h.stage
    case Opened =>
      JudgeSeeks(defaults, t, f);
      assert h.awards + [] == h.awards;
      hide Judge, IsOnGrid, Confirms, OnlyAsides;
    case First(tick) =>
      JudgeSeeks(defaults, t, f);
      MoreConfirmed(t, h, b, r, [tick, f]);
      LockedAt(Pace(e.Gt(), e.Gt() - tick.gt, 0, 0));
      hide Judge, IsOnGrid, Confirms, SlotAt, OnlyAsides;
    case Known(p) =>
      SameSlots(p, Passed(p, n, e.Held()), n);
      JudgeConfirms(defaults, t, f);
      MoreConfirmed(t, h, b, r, [f]);
      LockedAt(Pace(e.Gt(), e.Gt() - SlotAt(p, n), 0, 0));
      hide Judge, IsOnGrid, Confirms, SlotAt, Passes, OnlyAsides;
  }

  lemma LockedAt(p: Pace)
    requires p.silent == 0 && p.missed == 0
    ensures Waiting(p) == Phase(p.at, None, p.period, true, 0, 0)
  {
  }

  /** One regular entry: where the half goes, the estimator follows. */
  lemma StepFollows(defaults: bool, s: State, h: Half, e: Entry, n: nat, b: Base)
    requires Following(s, h, b) && Regular(h.stage, h.last, e, n)
    requires e.Half() == s.half && e.Gt() >= s.lastGt && e.Gt() - b.resetGt >= TICK_RESET_WINDOW
    ensures Following(Step(defaults, s, e), After(h, e, n), b)
  {
    var t := Noted(s, e, Roll(s.phase, e.Gt(), e.Held()));
    if h.stage.Known? {
      RollPasses(h.stage.pace, n, e.Gt(), e.Held());
    }
    if e.Cap? {
      CaptureOnlyRolls(defaults, s, e);
      hide Roll, Step, Confirms, SlotAt, Passes, OnlyAsides;
      assert h.awards + [] == h.awards;
    } else {
      ScoreIsJudged(defaults, s, e, Rise(h.last, e.frame));
      hide Roll, Step, IsOnGrid, SlotAt, Passes, Judge;
      if IsAside(h.last, e) {
        AsideFollows(defaults, t, h, e, n, b);
      } else {
        TickFollows(defaults, t, h, e, n, b);
      }
    }
  }

  lemma StepNotesTime(defaults: bool, s: State, e: Entry)
    ensures Step(defaults, s, e).lastGt == e.Gt() && Step(defaults, s, e).half == e.Half()
  {
    hide Roll, Learn, IsOnGrid;
  }

  lemma OpeningFollows(defaults: bool, s: State, e: Entry)
    requires e.Score? && Enters(s, e)
    ensures Following(Step(defaults, s, e), Half(Opened, e.frame, []), BaseOf(s))
  {
  }

  lemma AnalyzeStep(defaults: bool, before: seq<Entry>, timeline: seq<Entry>)
    requires timeline != []
    ensures
      var n := |timeline| - 1;
      Analyze(defaults, before + timeline)
      == Step(defaults, Analyze(defaults, before + timeline[..n]), timeline[n])
  {
    var n := |timeline| - 1;
    assert (before + timeline)[..|before| + n] == before + timeline[..n];
    hide Step;
  }

  lemma {:induction false} TimesAscend(timeline: seq<Entry>, passed: seq<nat>, i: nat)
    requires Steady(timeline, passed) && i < |timeline|
    ensures timeline[i].Gt() <= timeline[|timeline| - 1].Gt()
  {
    hide Regular, Play;
    var n := |timeline| - 1;
    if i < n {
      TimesAscend(timeline[..n], passed[..n], i);
    }
  }

  lemma {:induction false} HalfIsFollowed(
      defaults: bool, before: seq<Entry>, timeline: seq<Entry>, passed: seq<nat>)
    requires Steady(timeline, passed) && Enters(Analyze(defaults, before), timeline[0])
    requires ClearsWindow(timeline, Analyze(defaults, before).lastResetGt)
    ensures timeline[0].Score?
    ensures
      var s, n := Analyze(defaults, before + timeline), |timeline| - 1;
      && Following(s, Play(timeline, passed), BaseOf(Analyze(defaults, before)))
      && s.lastGt == timeline[n].Gt() && s.half == timeline[n].Half()
    decreases |timeline|
  {
    hide Step, Following, Advance, Regular, Ticks;
    var n := |timeline| - 1;
    var front, e := timeline[..n], timeline[n];
    AnalyzeStep(defaults, before, timeline);
    StepNotesTime(defaults, Analyze(defaults, before + front), e);
    if n == 0 {
      assert before + front == before;
      OpeningFollows(defaults, Analyze(defaults, before), e);
    } else {
      TimesAscend(timeline, passed, 1);
      HalfIsFollowed(defaults, before, front, passed[..n]);
      StepFollows(defaults, Analyze(defaults, before + front), Play(front, passed[..n]), e, passed[n],
                  BaseOf(Analyze(defaults, before)));
    }
  }

  // ---- The restart window of an earlier half ----

  lemma StepOnlyAddsRejections(defaults: bool, s: State, e: Entry)
    ensures s.rejected <= Step(defaults, s, e).rejected
  {
    hide Roll, Learn, IsOnGrid, SlotOf, InPhase, CheckGrid;
  }

  lemma {:induction false} RejectionsStay(defaults: bool, before: seq<Entry>, timeline: seq<Entry>, n: nat)
    requires n <= |timeline|
    ensures Analyze(defaults, before + timeline[..n]).rejected <= Analyze(defaults, before + timeline).rejected
    decreases |timeline|
  {
    hide Step;
    if n == |timeline| {
      assert timeline[..n] == timeline;
    } else {
      var front := timeline[..|timeline| - 1];
      assert front[..n] == timeline[..n];
      RejectionsStay(defaults, before, front, n);
      AnalyzeStep(defaults, before, timeline);
      StepOnlyAddsRejections(defaults, Analyze(defaults, before + front), timeline[|timeline| - 1]);
    }
  }

  /** A gain inside the window is turned away as such. */
  lemma WindowTurnsAway(defaults: bool, s: State, e: Entry, f: Frame)
    requires e.Score? && e.Half() == s.half && e.Gt() >= s.lastGt && s.seeded
    requires f == e.frame.(allies := e.frame.allies - s.prevA, axis := e.frame.axis - s.prevX) && Ordinary(f)
    requires e.Gt() - s.lastResetGt < TICK_RESET_WINDOW
    ensures
      Step(defaults, s, e) == Reject(Noted(s, e, Roll(s.phase, e.Gt(), e.Held())), f, ResetWindow)
  {
    hide Judge, Roll;
  }

  lemma {:induction false} SteadyPrefix(timeline: seq<Entry>, passed: seq<nat>, n: nat)
    requires Steady(timeline, passed) && 0 < n <= |timeline|
    ensures |passed| == |timeline| && Steady(timeline[..n], passed[..n])
    decreases |timeline|
  {
    hide Regular, Play;
    if n == |timeline| {
      assert timeline[..n] == timeline && passed[..n] == passed;
    } else {
      var k := |timeline| - 1;
      assert timeline[..k][..n] == timeline[..n] && passed[..k][..n] == passed[..n];
      SteadyPrefix(timeline[..k], passed[..k], n);
    }
  }

  /** The second entry of a steady half is its first gain. */
  lemma FirstGain(timeline: seq<Entry>, passed: seq<nat>)
    requires Steady(timeline, passed) && |timeline| >= 2
    ensures |passed| == |timeline| && Steady(timeline[..1], passed[..1])
    ensures timeline[0].Score? && timeline[1].Score? && Ordinary(Rise(timeline[0].frame, timeline[1].frame))
    ensures Play(timeline[..1], passed[..1]) == Half(Opened, timeline[0].frame, [])
    ensures timeline[1].Half() == timeline[0].Half() && timeline[1].Gt() >= timeline[0].Gt()
  {
    SteadyPrefix(timeline, passed, 2);
    SteadyPrefix(timeline, passed, 1);
    assert timeline[..2][..1] == timeline[..1] && passed[..2][..1] == passed[..1];
    hide IsOnGrid;
  }

  lemma FirstGainTurnedAway(defaults: bool, before: seq<Entry>, timeline: seq<Entry>, passed: seq<nat>)
    requires Steady(timeline, passed) && Enters(Analyze(defaults, before), timeline[0])
    requires !ClearsWindow(timeline, Analyze(defaults, before).lastResetGt)
    ensures
      var s, base := Analyze(defaults, before + timeline[..2]), |Analyze(defaults, before).rejected|;
      |s.rejected| == base + 1 && s.rejected[base].reason == ResetWindow
  {
    hide Step, Steady, Analyze, Play, Following;
    var one, e, b := timeline[..1], timeline[1], BaseOf(Analyze(defaults, before));
    FirstGain(timeline, passed);
    assert timeline[..2][..1] == one && timeline[..2][1] == e && one[0] == timeline[0];
    AnalyzeStep(defaults, before, timeline[..2]);
    HalfIsFollowed(defaults, before, one, passed[..1]);
    var s := Analyze(defaults, before + one);
    OpeningRejectsNothing(defaults, before, timeline[0]);
    assert one == [timeline[0]];
    OpenedIsSilent(s, Play(one, passed[..1]), b);
    WindowTurnsAway(defaults, s, e, Rise(timeline[0].frame, e.frame));
  }

  lemma OpeningRejectsNothing(defaults: bool, before: seq<Entry>, e: Entry)
    requires e.Score? && Enters(Analyze(defaults, before), e)
    ensures Analyze(defaults, before + [e]).rejected == Analyze(defaults, before).rejected
  {
    AnalyzeStep(defaults, before, [e]);
    assert before + [e][..0] == before;
    hide Analyze;
  }

  lemma OpenedIsSilent(s: State, h: Half, b: Base)
    requires Following(s, h, b) && h == Half(Opened, h.last, []) && |s.rejected| >= b.rejected
    ensures s.seeded && s.lastResetGt == b.resetGt && s.prevA == h.last.allies && s.prevX == h.last.axis
    ensures OnlyAsides(s.rejected[b.rejected..])
  {
  }

  /** Completeness, after any timeline: a steady half is followed tick by tick, through silent slots and captures,
      under one lock and with nothing turned away but off-grid and repeated scores, if and only if its first gain
      clears the restart window of the last capout, which entering the half does not forget. */
  lemma SteadyHalfFollowedExactlyWhen(defaults: bool, before: seq<Entry>, timeline: seq<Entry>, passed: seq<nat>)
    requires Steady(timeline, passed) && Enters(Analyze(defaults, before), timeline[0])
    ensures timeline[0].Score?
    ensures
      var s, s0 := Analyze(defaults, before + timeline), Analyze(defaults, before);
      Reported(s, Play(timeline, passed), BaseOf(s0)) <==> ClearsWindow(timeline, s0.lastResetGt)
  {
    hide Step, Analyze, Play, Advance, Regular, Ticks;
    var s0 := Analyze(defaults, before);
    SteadyOpens(timeline, passed);
    if ClearsWindow(timeline, s0.lastResetGt) {
      HalfIsFollowed(defaults, before, timeline, passed);
      hide Reported;
    } else {
      FirstGainTurnedAway(defaults, before, timeline, passed);
      RejectionsStay(defaults, before, timeline, 2);
      var s, two := Analyze(defaults, before + timeline), Analyze(defaults, before + timeline[..2]);
      var base := |s0.rejected|;
      assert s.rejected[base..][0] == s.rejected[base] == two.rejected[base];
      assert s.rejected[base..][0] in s.rejected[base..];
    }
  }

  lemma {:induction false} SteadyOpens(timeline: seq<Entry>, passed: seq<nat>)
    requires Steady(timeline, passed)
    ensures timeline[0].Score?
  {
    hide Regular, Play;
  }

  /** Once the pace is known the first tick of the half was clear of captures. */
  lemma {:induction false} FirstIsClean(timeline: seq<Entry>, passed: seq<nat>)
    requires Steady(timeline, passed)
    ensures
      var h := Play(timeline, passed);
      && (h.stage.First? ==> !h.stage.tick.capDirty)
      && (h.stage.Opened? || h.stage.First? ==> h.awards == [])
      && (h.stage.Known? ==> |h.awards| > 0 && !h.awards[0].capDirty)
  {
    hide IsAside, IsTick, Passes, SlotAt;
    var n := |timeline| - 1;
    if n > 0 {
      FirstIsClean(timeline[..n], passed[..n]);
    }
  }

  /** And when every clean tick gains one weight per point held, that is the weight learned, backed by every
      clean tick of the half. */
  lemma SteadyHalfTeachesItsWeight(before: seq<Entry>, timeline: seq<Entry>, passed: seq<nat>, w: int)
    requires Steady(timeline, passed) && timeline[0].Score? && Enters(Analyze(true, before), timeline[0])
    requires ClearsWindow(timeline, Analyze(true, before).lastResetGt)
    requires Play(timeline, passed).stage.Known? && 1 <= w <= TICK_W_MAX
    requires forall f :: f in Play(timeline, passed).awards && !f.capDirty ==> Explains(w, f)
    ensures
      var s := Analyze(true, before + timeline);
      s.model.w == Some(w) && !s.model.wFailed && s.model.wStreak == CleanCount(Current(s)) > 0
  {
    hide Analyze, Explains, Play;
    var s, h := Analyze(true, before + timeline), Play(timeline, passed);
    hide Steady, Enters, ClearsWindow;
    SteadyHalfFollowedExactlyWhen(true, before, timeline, passed);
    FirstIsClean(timeline, passed);
    WeightIsTheOneThatFits(before + timeline);
    var ticks := Current(s);
    assert ticks == s.ticks[|Analyze(true, before).ticks|..];
    forall i | 0 <= i < |ticks| && !ticks[i].award.capDirty ensures Explains(w, ticks[i].award) {
      assert h.awards[i] in h.awards;
    }
    assert Fits(w, ticks);
    assert !ticks[0].award.capDirty;
    if CleanCount(ticks) == 0 {
      AllDirty(ticks);
    }
  }

  // ---- A capout that silences the next half ----

  function Bare(half: int, gt: real, allies: int): Entry { Score(Frame(half, gt, allies, 0, 0, 0, false)) }

  /** A half that ends in a capout at 1010 s. */
  const CAPPED := [Bare(1, 1000.0, 0), Bare(1, 1010.0, 40)]

  /** The next one scores every half minute. */
  const NEXT := [Bare(2, 5.0, 0), Bare(2, 30.0, 2), Bare(2, 60.0, 4)]

  /** The state after the capout, and a state of the next half in which nothing has been confirmed. */
  ghost predicate Muted(s: State, half: int, gt: real, allies: int) {
    && s.half == half && s.lastGt == gt && s.lastResetGt == 1010.0 && s.seeded && s.prevA == allies && s.prevX == 0
    && s.ticks == [] && s.locks == []
  }

  lemma CappedMutes(defaults: bool)
    ensures Muted(Analyze(defaults, CAPPED), 1, 1010.0, 40)
  {
    assert CAPPED[..1] == [CAPPED[0]] && [CAPPED[0]][..0] == [];
    assert Analyze(defaults, []) == INIT;
    hide Analyze, Judge, Learn;
    AnalyzeStep(defaults, [], CAPPED);
    AnalyzeStep(defaults, [], [CAPPED[0]]);
    assert [] + CAPPED == CAPPED && [] + [CAPPED[0]] == [CAPPED[0]] && [] + [CAPPED[0]][..0] == [];
    var s := Analyze(defaults, [CAPPED[0]]);
    assert s.half == 1 && s.lastGt == 1000.0 && s.seeded && s.prevA == 0 && s.prevX == 0;
  }

  lemma MutedEnters(defaults: bool, s: State)
    requires Muted(s, 1, 1010.0, 40)
    ensures Enters(s, NEXT[0]) && Muted(Step(defaults, s, NEXT[0]), 2, 5.0, 0)
  {
    hide Judge, Learn;
  }

  lemma MutedStays(defaults: bool, s: State, gt: real, more: real, allies: int)
    requires Muted(s, 2, gt, allies) && gt <= more < 1010.0 && 0 <= allies
    ensures Muted(Step(defaults, s, Bare(2, more, allies + 2)), 2, more, allies + 2)
  {
    var e := Bare(2, more, allies + 2);
    WindowTurnsAway(defaults, s, e, Frame(2, more, 2, 0, 0, 0, false));
    hide Step, Roll;
  }

  lemma NextInTurn(defaults: bool)
    ensures Analyze(defaults, CAPPED + NEXT[..1]) == Step(defaults, Analyze(defaults, CAPPED), NEXT[0])
    ensures Analyze(defaults, CAPPED + NEXT[..2]) == Step(defaults, Analyze(defaults, CAPPED + NEXT[..1]), NEXT[1])
    ensures Analyze(defaults, CAPPED + NEXT) == Step(defaults, Analyze(defaults, CAPPED + NEXT[..2]), NEXT[2])
  {
    hide Analyze, Step;
    assert NEXT[..2][..1] == NEXT[..1] && CAPPED + NEXT[..1][..0] == CAPPED;
    AnalyzeStep(defaults, CAPPED, NEXT[..1]);
    AnalyzeStep(defaults, CAPPED, NEXT[..2]);
    AnalyzeStep(defaults, CAPPED, NEXT);
  }

  /** After a capout at 1010 s a steady next half is not followed while its own time is below 1013 s:
      its first minute confirms nothing. */
  lemma CapoutMutesNextHalf(defaults: bool)
    ensures Steady(NEXT, [0, 0, 0]) && Enters(Analyze(defaults, CAPPED), NEXT[0])
    ensures |Play(NEXT, [0, 0, 0]).awards| == 2
    ensures Analyze(defaults, CAPPED + NEXT).ticks == [] && Analyze(defaults, CAPPED + NEXT).locks == []
  {
    hide Analyze, Step, Steady, Play;
    NextIsSteady();
    CappedMutes(defaults);
    MutedEnters(defaults, Analyze(defaults, CAPPED));
    NextInTurn(defaults);
    MutedStays(defaults, Analyze(defaults, CAPPED + NEXT[..1]), 5.0, 30.0, 0);
    MutedStays(defaults, Analyze(defaults, CAPPED + NEXT[..2]), 30.0, 60.0, 2);
  }

  /** One more entry, regular or not. */
  lemma OneMore(timeline: seq<Entry>, passed: seq<nat>, e: Entry, n: nat)
    requires Steady(timeline, passed) && timeline[0].Score?
    requires e.Half() == timeline[|timeline| - 1].Half() && e.Gt() >= timeline[|timeline| - 1].Gt()
    ensures |passed| == |timeline| > 0
    ensures
      var h := Play(timeline, passed);
      && Play(timeline + [e], passed + [n])
         == Half(Advance(h.stage, h.last, e, n), if e.Score? then e.frame else h.last, h.awards + Ticks(h, e))
      && (Regular(h.stage, h.last, e, n) ==> Steady(timeline + [e], passed + [n]))
  {
    hide Regular, Advance, Ticks;
    var more, all := timeline + [e], passed + [n];
    assert more[..|timeline|] == timeline && all[..|timeline|] == passed;
  }

  lemma NextIsSteady()
    ensures Steady(NEXT, [0, 0, 0]) && |Play(NEXT, [0, 0, 0]).awards| == 2
  {
    hide Play, Steady;
    var f, g := Frame(2, 30.0, 2, 0, 0, 0, false), Frame(2, 60.0, 2, 0, 0, 0, false);
    var one := [NEXT[0]];
    assert Steady(one, [0]) && Play(one, [0]) == Half(Opened, NEXT[0].frame, []) by { NextOpens(); }
    OnTheHalfMinute();
    hide IsOnGrid;
    assert Rise(NEXT[0].frame, NEXT[1].frame) == f && IsTick(f);
    assert Rise(NEXT[1].frame, NEXT[2].frame) == g && IsTick(g) && !IsAside(NEXT[1].frame, NEXT[2]);
    hide IsTick, IsAside, Rise;
    assert [0] + [0] == [0, 0] && [0, 0] + [0] == [0, 0, 0];
    OneMore(one, [0], NEXT[1], 0);
    OneMore(one + [NEXT[1]], [0, 0], NEXT[2], 0);
    assert one + [NEXT[1]] + [NEXT[2]] == NEXT;
  }

  lemma NextOpens()
    ensures Steady([NEXT[0]], [0]) && Play([NEXT[0]], [0]) == Half(Opened, NEXT[0].frame, [])
  {
  }

  lemma OnTheHalfMinute()
    ensures IsOnGrid(30.0) && IsOnGrid(60.0)
  {
    assert 30.0 / TICK_GRID_QUANTUM == 60.0 && 60.0 / TICK_GRID_QUANTUM == 120.0;
  }
}
