/** What the estimator guarantees on every timeline: a lock is a genuine periodic phase, and the
    learned weight is exactly the one that explains every clean tick since the last full reset. */
module ScoreTickLaws {
  import opened Wrappers
  import opened ScoreTick

  // ---- Rolling ----

  function RollOnce(p: Phase, strikes: int): Phase {
    p.(strikes := strikes, blindRolls := p.blindRolls + 1, anchor := p.anchor + p.period)
  }

  /** The iterations of the roll loop. */
  function RollCount(p: Phase, gt: real, held: nat): nat
    decreases TICK_MAX_BLIND_ROLL - p.blindRolls
  {
    if !(p.locked && p.period > 0.0 && gt > p.anchor + p.period + TICK_OVERRUN_GRACE) then 0
    else
      var strikes := if held != 0 then p.strikes + 1 else 0;
      if held != 0 && strikes >= TICK_MISS_STRIKES then 1
      else if p.blindRolls + 1 > TICK_MAX_BLIND_ROLL then 1
      else 1 + RollCount(RollOnce(p, strikes), gt, held)
  }

  /** Rolling ends within nine iterations for any input, and leaves the entry at most one period
      and the grace past the anchor, or the estimator unlocked. */
  lemma {:induction false} RollEndsSoon(p: Phase, gt: real, held: nat)
    requires p.blindRolls >= 0
    ensures RollCount(p, gt, held)
         <= if p.blindRolls > TICK_MAX_BLIND_ROLL then 1 else TICK_MAX_BLIND_ROLL + 1 - p.blindRolls
    ensures var r := Roll(p, gt, held);
      r.locked && r.period > 0.0 ==> gt <= r.anchor + r.period + TICK_OVERRUN_GRACE
    decreases TICK_MAX_BLIND_ROLL - p.blindRolls
  {
    if p.locked && p.period > 0.0 && gt > p.anchor + p.period + TICK_OVERRUN_GRACE
       && p.blindRolls < TICK_MAX_BLIND_ROLL {
      var strikes := if held != 0 then p.strikes + 1 else 0;
      if !(held != 0 && strikes >= TICK_MISS_STRIKES) {
        RollEndsSoon(RollOnce(p, strikes), gt, held);
      }
    }
  }

  // ---- Phase lock ----

  /** A lock has a period, no candidate, fewer than two strikes and at most eight blind rolls; and
      its anchor lies a whole number of periods past the last confirmed tick. */
  ghost predicate PhaseInv(p: Phase, ticks: seq<ConfirmedTick>) {
    if p.locked then
      && p.period > 0.0 && p.cand.None?
      && 0 <= p.strikes < TICK_MISS_STRIKES && 0 <= p.blindRolls <= TICK_MAX_BLIND_ROLL
      && ticks != [] && p.anchor == ticks[|ticks| - 1].award.gt + p.blindRolls as real * p.period
    else p.strikes == 0 && p.blindRolls == 0
  }

  /** `gt` is within the phase tolerance of `n` periods past `from`. */
  predicate SlotsApart(from: real, gt: real, n: int, period: real) {
    Abs(gt - (from + n as real * period)) <= TICK_PHASE_TOL
  }

  /** The tick follows its predecessor in the same lock by `n` >= 1 periods, and by at most nine
      while the period exceeds a second and a half. */
  predicate FollowsBy(prev: ConfirmedTick, tick: ConfirmedTick, n: int) {
    && n >= 1 && SlotsApart(prev.award.gt, tick.award.gt, n, tick.period)
    && (tick.period > 1.5 ==> n <= TICK_MAX_BLIND_ROLL + 1)
  }

  ghost predicate Follows(prev: ConfirmedTick, tick: ConfirmedTick) {
    tick.period > 0.0 && exists n :: FollowsBy(prev, tick, n)
  }

  /** A tick with slots 0 is the first of a lock; every other follows the one before it. */
  ghost predicate TicksInv(ticks: seq<ConfirmedTick>) {
    && (ticks != [] ==> ticks[0].slots == 0)
    && (forall i :: 0 <= i < |ticks| ==> ticks[i].slots >= 0)
    && (forall i :: 0 < i < |ticks| && ticks[i].slots != 0 ==> Follows(ticks[i - 1], ticks[i]))
  }

  lemma AddPeriod(m: int, period: real)
    ensures m as real * period + period == (m + 1) as real * period
  {
  }

  lemma {:induction false} RollKeepsPhase(p: Phase, gt: real, held: nat, ticks: seq<ConfirmedTick>)
    requires PhaseInv(p, ticks)
    ensures PhaseInv(Roll(p, gt, held), ticks)
    decreases TICK_MAX_BLIND_ROLL - p.blindRolls
  {
    if p.locked && p.period > 0.0 && gt > p.anchor + p.period + TICK_OVERRUN_GRACE {
      var strikes := if held != 0 then p.strikes + 1 else 0;
      if !(held != 0 && strikes >= TICK_MISS_STRIKES) && p.blindRolls < TICK_MAX_BLIND_ROLL {
        AddPeriod(p.blindRolls, p.period);
        RollKeepsPhase(RollOnce(p, strikes), gt, held, ticks);
      }
    }
  }

  /** A frame on the next slot lies more than half a period past the anchor. */
  lemma RoundsToOne(d: real, period: real)
    requires period > 0.0
    ensures Round(d / period) == 1 ==> d > 0.0
  {
    if d <= 0.0 {
      assert d / period <= 0.0;
    }
  }

  lemma Scale(a: real, b: real, period: real)
    requires a <= b && period > 0.0
    ensures a * period <= b * period
  {
  }

  /** Past the roll, a period longer than twice the grace leaves room for one slot only. */
  lemma OneSlotAfterRoll(d: real, period: real)
    requires period > 1.5 && d <= period + TICK_OVERRUN_GRACE
    ensures Round(d / period) <= 1
  {
    var q := d / period;
    assert q * period == d;
    if q >= 1.5 {
      Scale(1.5, q, period);
      assert false;
    }
  }

  /** Blind rolls and rounded slots add up to whole periods since the last tick. */
  lemma SlotsAdd(from: real, anchor: real, gt: real, m: int, k: int, period: real)
    requires anchor == from + m as real * period
    requires Abs(gt - (anchor + k as real * period)) <= TICK_PHASE_TOL
    ensures SlotsApart(from, gt, m + k, period)
  {
    assert m as real * period + k as real * period == (m + k) as real * period;
  }

  /** The state right after a roll to `gt`. */
  ghost predicate Rolled(p: Phase, gt: real) {
    p.locked && p.period > 0.0 ==> gt <= p.anchor + p.period + TICK_OVERRUN_GRACE
  }

  lemma SlotBounds(p: Phase, gt: real)
    requires p.period > 0.0 && gt <= p.anchor + p.period + TICK_OVERRUN_GRACE
    ensures SlotOf(p, gt) == 1 ==> gt - p.anchor > 0.0
    ensures p.period > 1.5 ==> SlotOf(p, gt) <= 1
  {
    hide Round;
    RoundsToOne(gt - p.anchor, p.period);
    if p.period > 1.5 {
      OneSlotAfterRoll(gt - p.anchor, p.period);
    }
  }

  lemma NextTickFollows(p: Phase, prev: ConfirmedTick, f: Frame, k: int)
    requires p.period > 0.0 && 0 <= p.blindRolls <= TICK_MAX_BLIND_ROLL
    requires p.anchor == prev.award.gt + p.blindRolls as real * p.period
    requires f.gt <= p.anchor + p.period + TICK_OVERRUN_GRACE
    requires k == SlotOf(p, f.gt) && InPhase(p, f.gt, k)
    ensures Follows(prev, ConfirmedTick(f, p.period, k))
    ensures k == 1 ==> f.gt - p.anchor > 0.0
  {
    SlotBounds(p, f.gt);
    hide SlotOf, SlotsApart;
    SlotsAdd(prev.award.gt, p.anchor, f.gt, p.blindRolls, k, p.period);
    hide InPhase;
    assert FollowsBy(prev, ConfirmedTick(f, p.period, k), p.blindRolls + k);
  }

  lemma JustConfirmed(p: Phase, ticks: seq<ConfirmedTick>)
    requires p.locked && p.period > 0.0 && p.cand.None? && p.strikes == 0 && p.blindRolls == 0
    requires ticks != [] && p.anchor == ticks[|ticks| - 1].award.gt
    ensures PhaseInv(p, ticks)
  {
  }

  lemma LockedPhase(p: Phase, ticks: seq<ConfirmedTick>)
    requires p.locked && PhaseInv(p, ticks)
    ensures p.period > 0.0 && p.cand.None? && 0 <= p.blindRolls <= TICK_MAX_BLIND_ROLL
    ensures ticks != [] && p.anchor == ticks[|ticks| - 1].award.gt + p.blindRolls as real * p.period
  {
  }

  lemma ConfirmKeepsLock(defaults: bool, s: State, f: Frame)
    requires s.phase.locked && PhaseInv(s.phase, s.ticks) && TicksInv(s.ticks) && Rolled(s.phase, f.gt)
    ensures var r := Confirm(defaults, s, f); PhaseInv(r.phase, r.ticks) && TicksInv(r.ticks)
  {
    hide Learn, SlotOf, TicksInv, Follows, PhaseInv;
    LockedPhase(s.phase, s.ticks);
    var p, last := s.phase, s.ticks[|s.ticks| - 1];
    var k := SlotOf(p, f.gt);
    var r := Confirm(defaults, s, f);
    assert InPhase(p, f.gt, k) ==> k >= 1;
    hide InPhase;
    if InPhase(p, f.gt, k) {
      NextTickFollows(p, last, f, k);
      JustConfirmed(r.phase, r.ticks);
      TicksGrow(s.ticks, ConfirmedTick(f, p.period, k));
    }
  }

  lemma TicksGrow(ticks: seq<ConfirmedTick>, tick: ConfirmedTick)
    requires TicksInv(ticks) && tick.slots >= 0
    requires tick.slots != 0 ==> ticks != [] && Follows(ticks[|ticks| - 1], tick)
    ensures TicksInv(ticks + [tick])
  {
    hide Follows;
  }

  lemma BootstrapKeepsLock(defaults: bool, s: State, f: Frame)
    requires !s.phase.locked && PhaseInv(s.phase, s.ticks) && TicksInv(s.ticks)
    ensures var r := BootstrapWith(defaults, s, f); PhaseInv(r.phase, r.ticks) && TicksInv(r.ticks)
  {
    hide Learn;
    if !f.capDirty && s.phase.cand.Some? {
      var cand := s.phase.cand.value;
      var gap := f.gt - cand.gt;
      if TICK_PERIOD_MIN <= gap <= TICK_PERIOD_MAX {
        var first, second := ConfirmedTick(cand, gap, 0), ConfirmedTick(f, gap, 1);
        TicksGrow(s.ticks, first);
        assert FollowsBy(first, second, 1);
        TicksGrow(s.ticks + [first], second);
        assert s.ticks + [first] + [second] == s.ticks + [first, second];
      }
    }
  }

  ghost predicate LockInv(s: State) { PhaseInv(s.phase, s.ticks) && TicksInv(s.ticks) }

  lemma ScoreFrameKeepsLock(defaults: bool, s: State, frame: Frame)
    requires LockInv(s) && Rolled(s.phase, frame.gt)
    ensures LockInv(ScoreFrame(defaults, s, frame))
  {
    hide Confirm, BootstrapWith, TicksInv, IsOnGrid;
    var f := frame.(allies := frame.allies - s.prevA, axis := frame.axis - s.prevX);
    var t := s.(prevA := frame.allies, prevX := frame.axis);
    var g := t.(grid := CheckGrid(t.grid, f.gt));
    if s.phase.locked {
      ConfirmKeepsLock(defaults, g, f);
    } else {
      BootstrapKeepsLock(defaults, g, f);
    }
  }

  lemma StepKeepsLock(defaults: bool, s: State, e: Entry)
    requires LockInv(s)
    ensures LockInv(Step(defaults, s, e))
  {
    hide ScoreFrame, TicksInv, Roll;
    var entered := if e.Half() != s.half || e.Gt() < s.lastGt - 1.0 then ResetAll(s.(half := e.Half())) else s;
    RollKeepsPhase(entered.phase, e.Gt(), e.Held(), s.ticks);
    if entered.phase.blindRolls >= 0 {
      RollEndsSoon(entered.phase, e.Gt(), e.Held());
    }
    var rolled := entered.(lastGt := e.Gt(), phase := Roll(entered.phase, e.Gt(), e.Held()));
    if e.Score? {
      ScoreFrameKeepsLock(defaults, rolled, e.frame);
    }
  }

  /** On every timeline a lock is sound and the ticks of one lock keep its phase. */
  lemma {:induction false} LockIsPeriodic(defaults: bool, timeline: seq<Entry>)
    ensures LockInv(Analyze(defaults, timeline))
  {
    if timeline != [] {
      hide Step, LockInv;
      LockIsPeriodic(defaults, timeline[..|timeline| - 1]);
      StepKeepsLock(defaults, Analyze(defaults, timeline[..|timeline| - 1]), timeline[|timeline| - 1]);
    } else {
      assert LockInv(INIT);
    }
  }

  // ---- The award model ----

  /** Both teams' deltas are `w` per non-default point held. */
  predicate Explains(w: int, f: Frame) {
    f.allies == w * f.heldAllies && f.axis == w * f.heldAxis
  }

  /** A weight in range that explains every clean tick of `ticks`. */
  ghost predicate Fits(w: int, ticks: seq<ConfirmedTick>) {
    && 1 <= w <= 8
    && forall i :: 0 <= i < |ticks| && !ticks[i].award.capDirty ==> Explains(w, ticks[i].award)
  }

  function CleanCount(ticks: seq<ConfirmedTick>): nat {
    if ticks == [] then 0
    else CleanCount(ticks[..|ticks| - 1]) + if ticks[|ticks| - 1].award.capDirty then 0 else 1
  }

  /** A delta a judged frame can have: no team lost points, and some team gained. */
  predicate Gained(f: Frame) { f.allies >= 0 && f.axis >= 0 && (f.allies > 0 || f.axis > 0) }

  /** The model answers exactly the question which weight fits the clean ticks so far: a known
      weight is the only one that does, a failed model means none does, and the streak counts the
      clean ticks behind the weight. */
  ghost predicate ModelInv(m: Model, ticks: seq<ConfirmedTick>) {
    && (m.wFailed <==> forall w :: !Fits(w, ticks))
    && (!m.wFailed ==> m.wStreak == CleanCount(ticks) && (m.w.Some? <==> CleanCount(ticks) > 0))
    && (m.w.Some? ==> forall w :: Fits(w, ticks) <==> w == m.w.value)
    && (m.wFailed ==> m.w.None? && m.wStreak == 0)
  }

  lemma SmallMultiple(a: int, p: int)
    requires 0 <= a * p < p
    ensures a == 0
  {
    if a >= 1 {
      ScaleInt(1, a, p);
    } else if a <= -1 {
      ScaleInt(a, -1, p);
    }
  }

  lemma ScaleInt(a: int, b: int, p: int)
    requires a <= b && p > 0
    ensures a * p <= b * p
  {
  }

  lemma Multiple(w: int, held: int)
    requires held > 0
    ensures (w * held) % held == 0 && (w * held) / held == w
  {
    var q, r := (w * held) / held, (w * held) % held;
    assert (w - q) * held == r;
    SmallMultiple(w - q, held);
  }

  lemma Quotient(held: nat, delta: int, w: nat)
    requires held > 0
    ensures delta == w * held <==> delta % held == 0 && delta / held == w
  {
    Multiple(w, held);
    assert delta == held * (delta / held) + delta % held;
  }

  /** The only weight that can explain a gained frame; 0 when none can. */
  function Explanation(f: Frame): int {
    var wA, wX := ImpliedWeight(f.heldAllies, f.allies), ImpliedWeight(f.heldAxis, f.axis);
    if (f.heldAllies == 0 && f.allies != 0) || (f.heldAxis == 0 && f.axis != 0) then 0
    else if f.heldAllies == 0 then wX
    else if f.heldAxis == 0 || wA == wX then wA
    else 0
  }

  lemma OnlyExplanation(f: Frame, w: int)
    requires Gained(f) && 1 <= w
    ensures Explains(w, f) <==> Explanation(f) == w
  {
    if f.heldAllies > 0 {
      Quotient(f.heldAllies, f.allies, w);
    }
    if f.heldAxis > 0 {
      Quotient(f.heldAxis, f.axis, w);
    }
  }

  lemma LearnByExplanation(m: Model, f: Frame)
    requires Gained(f) && !m.wFailed
    ensures Learn(true, m, f) ==
      var w := Explanation(f);
      if 1 <= w <= TICK_W_MAX && (m.w.None? || m.w.value == w) then m.(w := Some(w), wStreak := m.wStreak + 1)
      else Fail(m, f)
  {
    if f.heldAllies > 0 {
      Positive(f.heldAllies, f.allies);
    }
    if f.heldAxis > 0 {
      Positive(f.heldAxis, f.axis);
    }
  }

  lemma Positive(held: nat, delta: int)
    requires held > 0 && delta >= 0
    ensures ImpliedWeight(held, delta) >= 0
  {
  }

  lemma FitsGrows(w: int, ticks: seq<ConfirmedTick>, tick: ConfirmedTick)
    ensures Fits(w, ticks + [tick]) <==> Fits(w, ticks) && (!tick.award.capDirty ==> Explains(w, tick.award))
  {
    hide Explains;
    var all := ticks + [tick];
    assert Fits(w, all) && !tick.award.capDirty ==> Explains(w, all[|ticks|].award);
    assert forall i :: 0 <= i < |ticks| ==> all[i] == ticks[i];
  }

  lemma {:induction false} AllDirty(ticks: seq<ConfirmedTick>)
    requires CleanCount(ticks) == 0
    ensures forall i :: 0 <= i < |ticks| ==> ticks[i].award.capDirty
  {
    if ticks != [] {
      AllDirty(ticks[..|ticks| - 1]);
    }
  }

  lemma LearnKeepsModel(m: Model, ticks: seq<ConfirmedTick>, tick: ConfirmedTick)
    requires ModelInv(m, ticks) && Gained(tick.award) && !tick.award.capDirty
    ensures ModelInv(Learn(true, m, tick.award), ticks + [tick])
  {
    hide Fits, Explains, Explanation;
    var f := tick.award;
    var all := ticks + [tick];
    assert all[..|all| - 1] == ticks;
    forall w ensures Fits(w, all) <==> Fits(w, ticks) && Explanation(f) == w {
      FitsGrows(w, ticks, tick);
      FitsInRange(w, ticks);
      if 1 <= w {
        OnlyExplanation(f, w);
      }
    }
    var u, r := Explanation(f), Learn(true, m, f);
    FitsInRange(u, ticks);
    if m.wFailed {
      assert forall w :: !Fits(w, all);
    } else {
      LearnByExplanation(m, f);
      if m.w.None? && 1 <= u <= TICK_W_MAX {
        AllDirtyFits(ticks, u);
      }
      assert forall w :: Fits(w, all) <==> r.w == Some(w);
      assert !r.wFailed ==> Fits(u, all);
      assert CleanCount(all) == CleanCount(ticks) + 1;
    }
  }

  lemma FitsInRange(w: int, ticks: seq<ConfirmedTick>)
    ensures Fits(w, ticks) ==> 1 <= w <= TICK_W_MAX
  {
  }

  lemma AllDirtyFits(ticks: seq<ConfirmedTick>, w: int)
    requires CleanCount(ticks) == 0 && 1 <= w <= TICK_W_MAX
    ensures Fits(w, ticks)
  {
    AllDirty(ticks);
  }

  lemma DirtyKeepsModel(m: Model, ticks: seq<ConfirmedTick>, tick: ConfirmedTick)
    requires ModelInv(m, ticks) && tick.award.capDirty
    ensures ModelInv(m, ticks + [tick])
  {
    var all := ticks + [tick];
    assert all[..|all| - 1] == ticks;
    hide Fits;
    forall w ensures Fits(w, all) <==> Fits(w, ticks) {
      FitsGrows(w, ticks, tick);
    }
  }

  /** The ticks confirmed since the last full reset. */
  function Current(s: State): seq<ConfirmedTick> {
    if s.since <= |s.ticks| then s.ticks[s.since..] else []
  }

  ghost predicate AwardInv(s: State) {
    && s.since <= |s.ticks| && ModelInv(s.model, Current(s))
    && (s.phase.cand.Some? ==> Gained(s.phase.cand.value) && !s.phase.cand.value.capDirty)
  }

  lemma EmptyModel(mismatches: seq<Frame>)
    ensures ModelInv(Model(None, 0, false, mismatches), [])
  {
    assert Fits(1, []);
  }

  lemma ConfirmKeepsAward(s: State, f: Frame)
    requires AwardInv(s) && s.phase.period > 0.0 && Gained(f)
    ensures AwardInv(Confirm(true, s, f))
  {
    hide ModelInv, Learn, SlotOf, InPhase;
    var p := s.phase;
    var k := SlotOf(p, f.gt);
    var tick := ConfirmedTick(f, p.period, k);
    assert (s.ticks + [tick])[s.since..] == Current(s) + [tick];
    if f.capDirty {
      DirtyKeepsModel(s.model, Current(s), tick);
    } else {
      LearnKeepsModel(s.model, Current(s), tick);
    }
  }

  lemma BootstrapKeepsAward(s: State, f: Frame)
    requires AwardInv(s) && Gained(f)
    ensures AwardInv(BootstrapWith(true, s, f))
  {
    hide ModelInv, Learn;
    if !f.capDirty && s.phase.cand.Some? {
      var cand := s.phase.cand.value;
      var gap := f.gt - cand.gt;
      if TICK_PERIOD_MIN <= gap <= TICK_PERIOD_MAX {
        var first, second := ConfirmedTick(cand, gap, 0), ConfirmedTick(f, gap, 1);
        LearnKeepsModel(s.model, Current(s), first);
        LearnKeepsModel(Learn(true, s.model, cand), Current(s) + [first], second);
        assert (s.ticks + [first, second])[s.since..] == Current(s) + [first] + [second];
      }
    }
  }

  lemma ScoreFrameKeepsAward(s: State, frame: Frame)
    requires AwardInv(s)
    ensures AwardInv(ScoreFrame(true, s, frame))
  {
    hide Confirm, BootstrapWith, ModelInv, IsOnGrid;
    EmptyModel(s.model.mismatches);
    assert s.ticks[|s.ticks|..] == [];
    var f := frame.(allies := frame.allies - s.prevA, axis := frame.axis - s.prevX);
    var t := s.(prevA := frame.allies, prevX := frame.axis);
    var g := t.(grid := CheckGrid(t.grid, f.gt));
    if Gained(f) {
      BootstrapKeepsAward(g, f);
      if s.phase.period > 0.0 {
        ConfirmKeepsAward(g, f);
      }
    }
  }

  lemma {:induction false} RollKeepsCandidate(p: Phase, gt: real, held: nat)
    ensures Roll(p, gt, held).cand.Some? ==> Roll(p, gt, held).cand == p.cand
    decreases TICK_MAX_BLIND_ROLL - p.blindRolls
  {
    if p.locked && p.period > 0.0 && gt > p.anchor + p.period + TICK_OVERRUN_GRACE {
      var strikes := if held != 0 then p.strikes + 1 else 0;
      if !(held != 0 && strikes >= TICK_MISS_STRIKES) && p.blindRolls < TICK_MAX_BLIND_ROLL {
        RollKeepsCandidate(RollOnce(p, strikes), gt, held);
      }
    }
  }

  lemma StepKeepsAward(s: State, e: Entry)
    requires AwardInv(s)
    ensures AwardInv(Step(true, s, e))
  {
    hide ScoreFrame, ModelInv, Roll;
    EmptyModel(s.model.mismatches);
    assert s.ticks[|s.ticks|..] == [];
    var entered := if e.Half() != s.half || e.Gt() < s.lastGt - 1.0 then ResetAll(s.(half := e.Half())) else s;
    RollKeepsCandidate(entered.phase, e.Gt(), e.Held());
    var rolled := entered.(lastGt := e.Gt(), phase := Roll(entered.phase, e.Gt(), e.Held()));
    assert AwardInv(rolled);
    if e.Score? {
      ScoreFrameKeepsAward(rolled, e.frame);
    }
  }

  /** Given default owners, on every timeline the estimator knows a weight exactly when one and
      only one weight in 1..8 explains every clean tick since the last full reset, and declares the
      model violated exactly when none does. */
  lemma {:induction false} WeightIsTheOneThatFits(timeline: seq<Entry>)
    ensures AwardInv(Analyze(true, timeline))
  {
    if timeline != [] {
      hide Step, AwardInv;
      WeightIsTheOneThatFits(timeline[..|timeline| - 1]);
      StepKeepsAward(Analyze(true, timeline[..|timeline| - 1]), timeline[|timeline| - 1]);
    } else {
      EmptyModel([]);
    }
  }

  /** So the projected award of a known weight is what every clean tick really paid. */
  lemma ProjectionMatchesTicks(timeline: seq<Entry>, i: nat)
    requires var s := Analyze(true, timeline);
      s.model.w.Some? && s.since <= i < |s.ticks| && !s.ticks[i].award.capDirty
    ensures var s := Analyze(true, timeline); var award := s.ticks[i].award;
      && ProjectAward(s.model.w, award.heldAllies) == Some(award.allies)
      && ProjectAward(s.model.w, award.heldAxis) == Some(award.axis)
  {
    WeightIsTheOneThatFits(timeline);
    var s := Analyze(true, timeline);
    assert Fits(s.model.w.value, Current(s));
    assert Current(s)[i - s.since] == s.ticks[i];
  }
}
