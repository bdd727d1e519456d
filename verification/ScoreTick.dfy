/** The territorial scoring-tick estimator: it reconstructs the period, the phase and the per-flag
    weight of the game's periodic awards from a timeline of score frames and captures. Game times
    are seconds and scores are whole points. */
module ScoreTick {
  import opened Wrappers

  const TICK_GRID_QUANTUM := 0.5
  const TICK_GRID_TOL := 0.06
  const TICK_PERIOD_MIN := 20.0
  const TICK_PERIOD_MAX := 45.0
  const TICK_PHASE_TOL := 0.25
  const TICK_CAPOUT_FLOOR := 20
  const TICK_OVERRUN_GRACE := 0.75
  const TICK_MISS_STRIKES := 2
  const TICK_MAX_BLIND_ROLL := 8
  const TICK_W_MAX := 8
  const TICK_RESET_WINDOW := 3.0
  const LONG_AGO := -1000000000.0

  datatype RejectReason =
    | Negative | Zero | Capout | ResetWindow | OffGrid | CapDirty | OffPhase | Bootstrap

  /** A score frame, or the score deltas read from one. */
  datatype Frame = Frame(
    half: int, gt: real, allies: int, axis: int, heldAllies: nat, heldAxis: nat, capDirty: bool)

  /** One timeline entry: a capture, or a frame. The held counts are those in force before it. */
  datatype Entry =
    | Cap(half: int, gt: real, heldAllies: nat, heldAxis: nat)
    | Score(frame: Frame)
  {
    function Half(): int { if Cap? then half else frame.half }
    function Gt(): real { if Cap? then gt else frame.gt }
    function Held(): nat { if Cap? then heldAllies + heldAxis else frame.heldAllies + frame.heldAxis }
  }

  datatype ConfirmedTick = ConfirmedTick(award: Frame, period: real, slots: int)

  datatype RejectedFrame = RejectedFrame(half: int, gt: real, allies: int, axis: int, reason: RejectReason)

  datatype LockEvent = LockEvent(half: int, gt: real, period: real)

  datatype Phase = Phase(
    anchor: real, cand: Option<Frame>, period: real, locked: bool, strikes: int, blindRolls: int)

  datatype Model = Model(w: Option<int>, wStreak: int, wFailed: bool, mismatches: seq<Frame>)

  datatype Grid = Grid(seen: int, miss: int, ok: bool, disabled: bool)

  /** `since` marks how many ticks had been confirmed at the last full reset; the code does not
      keep it. */
  datatype State = State(
    half: int, lastGt: real, lastResetGt: real, prevA: int, prevX: int, seeded: bool,
    phase: Phase, model: Model, grid: Grid,
    ticks: seq<ConfirmedTick>, rejected: seq<RejectedFrame>, locks: seq<LockEvent>, since: nat)

  const NO_PHASE := Phase(0.0, None, 0.0, false, 0, 0)
  const INIT := State(-1, LONG_AGO, LONG_AGO, -1, -1, false, NO_PHASE, Model(None, 0, false, []),
                      Grid(0, 0, true, false), [], [], [], 0)

  function Abs(x: real): real { if x < 0.0 then -x else x }

  /** JavaScript's `Math.round`. */
  function Round(x: real): int { (x + 0.5).Floor }

  predicate IsOnGrid(gt: real) {
    var q := gt / TICK_GRID_QUANTUM;
    Abs(q - Round(q) as real) * TICK_GRID_QUANTUM <= TICK_GRID_TOL
  }

  function ResetPhase(s: State): State { s.(phase := NO_PHASE) }

  function ResetAll(s: State): State {
    s.(phase := NO_PHASE,
       model := Model(None, 0, false, s.model.mismatches),
       grid := Grid(0, 0, true, s.grid.disabled),
       prevA := -1, prevX := -1, seeded := false, since := |s.ticks|)
  }

  /** Step the anchor through the silent slots before `gt`, given the points held meanwhile. */
  function Roll(p: Phase, gt: real, held: nat): Phase
    decreases TICK_MAX_BLIND_ROLL - p.blindRolls
  {
    if !(p.locked && p.period > 0.0 && gt > p.anchor + p.period + TICK_OVERRUN_GRACE) then p
    else
      var strikes := if held != 0 then p.strikes + 1 else 0;
      if held != 0 && strikes >= TICK_MISS_STRIKES then NO_PHASE
      else if p.blindRolls + 1 > TICK_MAX_BLIND_ROLL then NO_PHASE
      else Roll(p.(strikes := strikes, blindRolls := p.blindRolls + 1, anchor := p.anchor + p.period), gt, held)
  }

  /** The weight one team's delta implies; 0 when it implies none. */
  function ImpliedWeight(held: nat, delta: int): int {
    if held > 0 && delta % held == 0 then delta / held else 0
  }

  function Fail(m: Model, f: Frame): Model {
    Model(None, 0, true, m.mismatches + [f])
  }

  /** Learn the weight from one uncontaminated tick, or find the award model violated. */
  function Learn(defaults: bool, m: Model, f: Frame): Model {
    if !defaults || m.wFailed then m
    else if f.heldAllies == 0 && f.allies != 0 then Fail(m, f)
    else if f.heldAxis == 0 && f.axis != 0 then Fail(m, f)
    else
      var wA, wX := ImpliedWeight(f.heldAllies, f.allies), ImpliedWeight(f.heldAxis, f.axis);
      if f.heldAllies > 0 && wA == 0 then Fail(m, f)
      else if f.heldAxis > 0 && wX == 0 then Fail(m, f)
      else if wA != 0 && wX != 0 && wA != wX then Fail(m, f)
      else
        var cw := if wA != 0 then wA else wX;
        if cw == 0 then m
        else if cw < 1 || cw > TICK_W_MAX then Fail(m, f)
        else if m.w.Some? && cw != m.w.value then Fail(m, f)
        else m.(w := Some(cw), wStreak := m.wStreak + 1)
  }

  function Reject(s: State, f: Frame, reason: RejectReason): State {
    s.(rejected := s.rejected + [RejectedFrame(f.half, f.gt, f.allies, f.axis, reason)])
  }

  /** Twelve frames without one on the half-second grid turn the grid test off. */
  function CheckGrid(g: Grid, gt: real): Grid {
    if !(g.ok && g.seen < 12) then g
    else
      var miss := if IsOnGrid(gt) then g.miss else g.miss + 1;
      if g.seen + 1 == 12 && miss == 12 then Grid(12, 12, false, true) else g.(seen := g.seen + 1, miss := miss)
  }

  /** The slot nearest to `gt`, counted from the anchor. */
  function SlotOf(p: Phase, gt: real): int
    requires p.period > 0.0
  {
    Round((gt - p.anchor) / p.period)
  }

  predicate InPhase(p: Phase, gt: real, k: int) {
    k >= 1 && Abs(gt - (p.anchor + k as real * p.period)) <= TICK_PHASE_TOL
  }

  /** A locked estimator confirms the frame on its phase or rejects it. */
  function Confirm(defaults: bool, s: State, f: Frame): State
    requires s.phase.period > 0.0
  {
    var p := s.phase;
    var k := SlotOf(p, f.gt);
    if InPhase(p, f.gt, k) then
      s.(ticks := s.ticks + [ConfirmedTick(f, p.period, k)],
         phase := p.(period := if k == 1 then f.gt - p.anchor else p.period,
                     anchor := f.gt, strikes := 0, blindRolls := 0),
         model := if f.capDirty then s.model else Learn(defaults, s.model, f))
    else Reject(s, f, OffPhase)
  }

  /** An unlocked estimator pairs the frame with its candidate, or makes it the candidate. */
  function BootstrapWith(defaults: bool, s: State, f: Frame): State {
    if f.capDirty then Reject(s, f, CapDirty)
    else if s.phase.cand.Some? then
      var cand := s.phase.cand.value;
      var gap := f.gt - cand.gt;
      if TICK_PERIOD_MIN <= gap <= TICK_PERIOD_MAX then
        s.(phase := Phase(f.gt, None, gap, true, 0, 0),
           locks := s.locks + [LockEvent(f.half, f.gt, gap)],
           ticks := s.ticks + [ConfirmedTick(cand, gap, 0), ConfirmedTick(f, gap, 1)],
           model := Learn(defaults, Learn(defaults, s.model, cand), f))
      else
        var rejected := Reject(s, f, Bootstrap);
        rejected.(phase := rejected.phase.(cand := Some(f)))
    else s.(phase := s.phase.(cand := Some(f)))
  }

  /** A frame whose deltas `f` are positive, plausible and clear of a restart. */
  function Judge(defaults: bool, s: State, f: Frame): State {
    var g := s.(grid := CheckGrid(s.grid, f.gt));
    if g.grid.ok && !IsOnGrid(f.gt) then Reject(g, f, OffGrid)
    else if g.phase.locked && g.phase.period > 0.0 then Confirm(defaults, g, f)
    else BootstrapWith(defaults, g, f)
  }

  function ScoreFrame(defaults: bool, s: State, frame: Frame): State {
    if !s.seeded then s.(prevA := frame.allies, prevX := frame.axis, seeded := true)
    else
      var f := frame.(allies := frame.allies - s.prevA, axis := frame.axis - s.prevX);
      var t := s.(prevA := frame.allies, prevX := frame.axis);
      if f.allies < 0 || f.axis < 0 then Reject(ResetAll(t), f, Negative)
      else if f.allies == 0 && f.axis == 0 then Reject(t, f, Zero)
      else if f.allies >= TICK_CAPOUT_FLOOR || f.axis >= TICK_CAPOUT_FLOOR then
        Reject(ResetPhase(t).(lastResetGt := f.gt), f, Capout)
      else if f.gt - t.lastResetGt < TICK_RESET_WINDOW then Reject(t, f, ResetWindow)
      else Judge(defaults, t, f)
  }

  /** One timeline entry: notice a new half or a changelevel, roll through silence, then score. */
  function Step(defaults: bool, s: State, e: Entry): State {
    var entered := if e.Half() != s.half || e.Gt() < s.lastGt - 1.0 then ResetAll(s.(half := e.Half())) else s;
    var rolled := entered.(lastGt := e.Gt(), phase := Roll(entered.phase, e.Gt(), e.Held()));
    if e.Cap? then rolled else ScoreFrame(defaults, rolled, e.frame)
  }

  function Analyze(defaults: bool, timeline: seq<Entry>): State {
    if timeline == [] then INIT
    else Step(defaults, Analyze(defaults, timeline[..|timeline| - 1]), timeline[|timeline| - 1])
  }

  function ProjectAward(w: Option<int>, nonDefaultHeld: nat): Option<int> {
    if w.None? || w.value <= 0 then None else Some(w.value * nonDefaultHeld)
  }

  /** The estimator's variables, grouped as its reset closures group them. */
  class Estimator {
    const defaults: bool
    var half: int
    var lastGt: real
    var lastResetGt: real
    var prevA: int
    var prevX: int
    var seeded: bool
    var phase: Phase
    var model: Model
    var grid: Grid
    var ticks: seq<ConfirmedTick>
    var rejected: seq<RejectedFrame>
    var locks: seq<LockEvent>
    ghost var since: nat

    constructor (defaults: bool)
      ensures this.defaults == defaults && View() == INIT
    {
      this.defaults := defaults;
      half, lastGt, lastResetGt, prevA, prevX, seeded := -1, LONG_AGO, LONG_AGO, -1, -1, false;
      phase, model, grid := NO_PHASE, Model(None, 0, false, []), Grid(0, 0, true, false);
      ticks, rejected, locks, since := [], [], [], 0;
    }

    ghost function View(): State
      reads this
    {
      State(half, lastGt, lastResetGt, prevA, prevX, seeded, phase, model, grid, ticks, rejected, locks, since)
    }

    method ClearPhase()
      modifies this`phase
      ensures View() == ResetPhase(old(View()))
    {
      phase := NO_PHASE;
    }

    method ClearAll()
      modifies this
      ensures View() == ResetAll(old(View()))
    {
      phase := NO_PHASE;
      model := model.(w := None, wStreak := 0, wFailed := false);
      grid := grid.(seen := 0, miss := 0, ok := true);
      prevA, prevX, seeded := -1, -1, false;
      since := |ticks|;
    }

    method RollTo(gt: real, held: nat)
      modifies this`phase
      ensures phase == Roll(old(phase), gt, held)
    {
      while phase.locked && phase.period > 0.0 && gt > phase.anchor + phase.period + TICK_OVERRUN_GRACE
        invariant Roll(phase, gt, held) == Roll(old(phase), gt, held)
        decreases TICK_MAX_BLIND_ROLL - phase.blindRolls
      {
        if held != 0 {
          phase := phase.(strikes := phase.strikes + 1);
          if phase.strikes >= TICK_MISS_STRIKES {
            ClearPhase();
            return;
          }
        } else {
          phase := phase.(strikes := 0);
        }
        phase := phase.(blindRolls := phase.blindRolls + 1);
        if phase.blindRolls > TICK_MAX_BLIND_ROLL {
          ClearPhase();
          return;
        }
        phase := phase.(anchor := phase.anchor + phase.period);
      }
    }

    method Mismatch(f: Frame)
      modifies this`model
      ensures model == Fail(old(model), f)
    {
      model := Model(None, 0, true, model.mismatches + [f]);
    }

    method LearnFrom(f: Frame)
      modifies this`model
      ensures model == Learn(defaults, old(model), f)
    {
      if !defaults || model.wFailed {
        return;
      }
      var cA, cX := f.heldAllies, f.heldAxis;
      if (cA == 0 && f.allies != 0) || (cX == 0 && f.axis != 0) {
        Mismatch(f);
        return;
      }
      var wA := if cA > 0 && f.allies % cA == 0 then f.allies / cA else 0;
      var wX := if cX > 0 && f.axis % cX == 0 then f.axis / cX else 0;
      if (cA > 0 && wA == 0) || (cX > 0 && wX == 0) || (wA != 0 && wX != 0 && wA != wX) {
        Mismatch(f);
        return;
      }
      var cw := if wA != 0 then wA else wX;
      if cw == 0 {
        return;
      }
      if cw < 1 || cw > TICK_W_MAX || (model.w.Some? && cw != model.w.value) {
        Mismatch(f);
        return;
      }
      model := model.(w := Some(cw), wStreak := model.wStreak + 1);
    }

    method NoteReject(f: Frame, reason: RejectReason)
      modifies this`rejected
      ensures View() == Reject(old(View()), f, reason)
    {
      rejected := rejected + [RejectedFrame(f.half, f.gt, f.allies, f.axis, reason)];
    }

    method OnPhase(f: Frame)
      requires phase.period > 0.0
      modifies this`ticks, this`phase, this`model, this`rejected
      ensures View() == Confirm(defaults, old(View()), f)
    {
      var k := Round((f.gt - phase.anchor) / phase.period);
      var err := Abs(f.gt - (phase.anchor + k as real * phase.period));
      assert k == SlotOf(phase, f.gt) && (k >= 1 && err <= TICK_PHASE_TOL <==> InPhase(phase, f.gt, k));
      hide SlotOf, InPhase, Round, Abs, Learn, Reject;
      if k >= 1 && err <= TICK_PHASE_TOL {
        ticks := ticks + [ConfirmedTick(f, phase.period, k)];
        if k == 1 {
          phase := phase.(period := f.gt - phase.anchor);
        }
        phase := phase.(anchor := f.gt, strikes := 0, blindRolls := 0);
        if !f.capDirty {
          LearnFrom(f);
        }
      } else {
        NoteReject(f, OffPhase);
      }
    }

    method Seek(f: Frame)
      requires !phase.locked || phase.period <= 0.0
      modifies this`ticks, this`locks, this`phase, this`model, this`rejected
      ensures View() == BootstrapWith(defaults, old(View()), f)
    {
      if f.capDirty {
        NoteReject(f, CapDirty);
        return;
      }
      if phase.cand.Some? {
        var first := phase.cand.value;
        var gap := f.gt - first.gt;
        if gap >= TICK_PERIOD_MIN && gap <= TICK_PERIOD_MAX {
          phase := phase.(locked := true, period := gap, anchor := f.gt, strikes := 0, blindRolls := 0);
          locks := locks + [LockEvent(f.half, f.gt, gap)];
          ticks := ticks + [ConfirmedTick(first, gap, 0)];
          LearnFrom(first);
          ticks := ticks + [ConfirmedTick(f, gap, 1)];
          LearnFrom(f);
          phase := phase.(cand := None);
          return;
        }
        NoteReject(f, Bootstrap);
      }
      phase := phase.(cand := Some(f));
    }

    /** Is the recording's clock on the half-second grid at all? */
    method SelfCheck(gt: real)
      modifies this`grid
      ensures grid == CheckGrid(old(grid), gt)
    {
      hide IsOnGrid;
      if grid.ok && grid.seen < 12 {
        grid := grid.(seen := grid.seen + 1);
        if !IsOnGrid(gt) {
          grid := grid.(miss := grid.miss + 1);
        }
        if grid.seen == 12 && grid.miss == 12 {
          grid := grid.(ok := false, disabled := true);
        }
      }
    }

    method JudgeFrame(f: Frame)
      modifies this`ticks, this`locks, this`phase, this`model, this`grid, this`rejected
      ensures View() == Judge(defaults, old(View()), f)
    {
      hide Confirm, BootstrapWith, Reject, IsOnGrid, CheckGrid;
      SelfCheck(f.gt);
      if grid.ok && !IsOnGrid(f.gt) {
        NoteReject(f, OffGrid);
      } else if phase.locked && phase.period > 0.0 {
        OnPhase(f);
      } else {
        Seek(f);
      }
    }

    method FeedFrame(frame: Frame)
      modifies this
      ensures View() == ScoreFrame(defaults, old(View()), frame)
    {
      hide Judge, Reject, ResetAll, ResetPhase;
      if !seeded {
        prevA, prevX, seeded := frame.allies, frame.axis, true;
        return;
      }
      var f := frame.(allies := frame.allies - prevA, axis := frame.axis - prevX);
      prevA, prevX := frame.allies, frame.axis;
      if f.allies < 0 || f.axis < 0 {
        ClearAll();
        NoteReject(f, Negative);
      } else if f.allies == 0 && f.axis == 0 {
        NoteReject(f, Zero);
      } else if (if f.allies > f.axis then f.allies else f.axis) >= TICK_CAPOUT_FLOOR {
        ClearPhase();
        lastResetGt := f.gt;
        NoteReject(f, Capout);
      } else if f.gt - lastResetGt < TICK_RESET_WINDOW {
        NoteReject(f, ResetWindow);
      } else {
        JudgeFrame(f);
      }
    }

    method Feed(e: Entry)
      modifies this
      ensures View() == Step(defaults, old(View()), e)
    {
      hide ScoreFrame;
      if e.Half() != half || e.Gt() < lastGt - 1.0 {
        half := e.Half();
        ClearAll();
      }
      lastGt := e.Gt();
      RollTo(e.Gt(), e.Held());
      if e.Score? {
        FeedFrame(e.frame);
      }
    }
  }

  /** Run the estimator over a whole timeline. */
  method AnalyzeScoreTicks(defaults: bool, timeline: seq<Entry>)
    returns (ticks: seq<ConfirmedTick>, rejected: seq<RejectedFrame>, locks: seq<LockEvent>,
             w: Option<int>, wFailed: bool, wStreak: int, mismatches: seq<Frame>, gridDisabled: bool)
    ensures var s := Analyze(defaults, timeline);
      && mismatches == s.model.mismatches && gridDisabled == s.grid.disabled
      && ticks == s.ticks && rejected == s.rejected && locks == s.locks
      && w == s.model.w && wFailed == s.model.wFailed && wStreak == s.model.wStreak
  {
    var estimator := new Estimator(defaults);
    for i := 0 to |timeline|
      invariant estimator.defaults == defaults && fresh(estimator)
      invariant estimator.View() == Analyze(defaults, timeline[..i])
    {
      assert timeline[..i + 1][..i] == timeline[..i];
      estimator.Feed(timeline[i]);
    }
    assert timeline[..|timeline|] == timeline;
    FailedModelHasNoWeight(defaults, timeline);
    return estimator.ticks, estimator.rejected, estimator.locks,
           if estimator.model.wFailed then None else estimator.model.w,
           estimator.model.wFailed, estimator.model.wStreak, estimator.model.mismatches, estimator.grid.disabled;
  }

  lemma LearnFailsWithoutWeight(defaults: bool, m: Model, f: Frame)
    requires m.wFailed ==> m.w.None?
    ensures var r := Learn(defaults, m, f); r.wFailed ==> r.w.None?
  {
    hide ImpliedWeight;
  }

  lemma JudgeFailsWithoutWeight(defaults: bool, s: State, f: Frame)
    requires s.model.wFailed ==> s.model.w.None?
    ensures var r := Judge(defaults, s, f); r.model.wFailed ==> r.model.w.None?
  {
    hide Learn, IsOnGrid, CheckGrid, SlotOf, InPhase;
    LearnFailsWithoutWeight(defaults, s.model, f);
    if s.phase.cand.Some? {
      var first := s.phase.cand.value;
      LearnFailsWithoutWeight(defaults, s.model, first);
      LearnFailsWithoutWeight(defaults, Learn(defaults, s.model, first), f);
    }
  }

  lemma StepFailsWithoutWeight(defaults: bool, s: State, e: Entry)
    requires s.model.wFailed ==> s.model.w.None?
    ensures var r := Step(defaults, s, e); r.model.wFailed ==> r.model.w.None?
  {
    hide Judge, Roll;
    forall t: State, f: Frame | t.model.wFailed ==> t.model.w.None?
      ensures Judge(defaults, t, f).model.wFailed ==> Judge(defaults, t, f).model.w.None?
    {
      JudgeFailsWithoutWeight(defaults, t, f);
    }
  }

  lemma {:induction false} FailedModelHasNoWeight(defaults: bool, timeline: seq<Entry>)
    ensures Analyze(defaults, timeline).model.wFailed ==> Analyze(defaults, timeline).model.w.None?
  {
    hide Step;
    if timeline != [] {
      var before := timeline[..|timeline| - 1];
      FailedModelHasNoWeight(defaults, before);
      StepFailsWithoutWeight(defaults, Analyze(defaults, before), timeline[|timeline| - 1]);
    }
  }
}
