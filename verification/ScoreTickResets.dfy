/** When the estimator forgets, told from the timeline alone: the resets, what a reset leaves, and the verdict on every
    score, with the estimator's limits written out. */
module ScoreTickResets {
  import opened Wrappers
  import opened ScoreTick
  import opened ScoreTickLaws

  function Front(timeline: seq<Entry>): seq<Entry>
    requires timeline != []
  {
    timeline[..|timeline| - 1]
  }

  function Final(timeline: seq<Entry>): Entry
    requires timeline != []
  {
    timeline[|timeline| - 1]
  }

  /** The last entry is of another half than the one before, or more than a second earlier. */
  predicate Enters(timeline: seq<Entry>) {
    timeline != []
    && (|timeline| == 1 || (var before := timeline[|timeline| - 2];
                            Final(timeline).Half() != before.Half() || Final(timeline).Gt() < before.Gt() - 1.0))
  }

  /** The scores last seen since the latest reset. */
  function Seen(timeline: seq<Entry>): Option<(int, int)>
    decreases |timeline|, 1
  {
    if timeline == [] then None
    else
      var e := Final(timeline);
      if Falls(timeline) then None
      else if e.Score? then Some((e.frame.allies, e.frame.axis))
      else if Enters(timeline) then None
      else Seen(Front(timeline))
  }

  /** The last entry is a score in which some team has fewer points than last seen. */
  predicate Falls(timeline: seq<Entry>)
    decreases |timeline|, 0
  {
    timeline != [] && !Enters(timeline) && Final(timeline).Score? && Seen(Front(timeline)).Some?
    && (var was, f := Seen(Front(timeline)).value, Final(timeline).frame; f.allies < was.0 || f.axis < was.1)
  }

  predicate Resets(timeline: seq<Entry>) { Enters(timeline) || Falls(timeline) }

  /** How many ticks had been confirmed when the latest reset came. */
  function SinceReset(defaults: bool, timeline: seq<Entry>): nat {
    if timeline == [] then 0
    else if Resets(timeline) then |Analyze(defaults, Front(timeline)).ticks|
    else SinceReset(defaults, Front(timeline))
  }

  /** What a score gains over the one last seen. */
  function GainOf(was: (int, int), f: Frame): (int, int) { (f.allies - was.0, f.axis - was.1) }

  /** The game time of the latest capout: a score in which no team lost and some team gained 20 or more. */
  function LastCapout(timeline: seq<Entry>): Option<real> {
    if timeline == [] then None
    else if !Enters(timeline) && Final(timeline).Score? && !Falls(timeline) && Seen(Front(timeline)).Some?
            && (var g := GainOf(Seen(Front(timeline)).value, Final(timeline).frame); g.0 >= 20 || g.1 >= 20)
    then Some(Final(timeline).Gt())
    else LastCapout(Front(timeline))
  }

  /** What is remembered of the timeline. */
  ghost predicate Remembers(defaults: bool, timeline: seq<Entry>) {
    var s := Analyze(defaults, timeline);
    && s.since == SinceReset(defaults, timeline)
    && (s.seeded <==> Seen(timeline).Some?)
    && (s.seeded ==> Seen(timeline).value == (s.prevA, s.prevX))
    && s.lastResetGt == LastCapout(timeline).GetOr(LONG_AGO)
    && (timeline != [] ==> s.half == Final(timeline).Half() && s.lastGt == Final(timeline).Gt())
  }

  lemma StepRemembers(defaults: bool, s: State, e: Entry)
    ensures
      var r := Step(defaults, s, e);
      var entered := e.Half() != s.half || e.Gt() < s.lastGt - 1.0;
      var f := if e.Score? then e.frame else Frame(0, 0.0, 0, 0, 0, 0, false);
      var fell := !entered && e.Score? && s.seeded && (f.allies < s.prevA || f.axis < s.prevX);
      && r.half == e.Half() && r.lastGt == e.Gt()
      && r.since == (if entered || fell then |s.ticks| else s.since)
      && r.seeded == (!fell && (e.Score? || (!entered && s.seeded)))
      && (r.seeded ==> if e.Score? then r.prevA == f.allies && r.prevX == f.axis
                       else r.prevA == s.prevA && r.prevX == s.prevX)
      && r.lastResetGt == (if !entered && e.Score? && s.seeded && !fell
                              && (f.allies - s.prevA >= 20 || f.axis - s.prevX >= 20) then e.Gt() else s.lastResetGt)
  {
    hide Roll, Learn, IsOnGrid, SlotOf, InPhase, CheckGrid;
  }

  /** The state remembers the half and time of the last entry, the scores last seen since a reset, the latest capout,
      and how many ticks the latest reset found: a new half, a step back in time of more than a second, or a score
      that falls. */
  lemma {:induction false} TimelineIsRemembered(defaults: bool, timeline: seq<Entry>)
    ensures Remembers(defaults, timeline)
  {
    hide Step, Remembers;
    if timeline == [] {
      NothingSeen(defaults);
    } else if |timeline| == 1 {
      FirstRemembers(defaults, timeline[0]);
      assert timeline == [timeline[0]];
    } else {
      TimelineIsRemembered(defaults, Front(timeline));
      EntryRemembers(defaults, timeline);
    }
  }

  lemma NothingSeen(defaults: bool)
    ensures Remembers(defaults, [])
  {
  }

  lemma EntryRemembers(defaults: bool, timeline: seq<Entry>)
    requires |timeline| > 1 && Remembers(defaults, Front(timeline))
    ensures Remembers(defaults, timeline)
  {
    StepRemembers(defaults, Analyze(defaults, Front(timeline)), Final(timeline));
    assert Analyze(defaults, timeline) == Step(defaults, Analyze(defaults, Front(timeline)), Final(timeline));
    hide Step;
    assert Final(Front(timeline)) == timeline[|timeline| - 2];
    hide Analyze;
    var s := Analyze(defaults, timeline);
    assert s.since == SinceReset(defaults, timeline) && (s.seeded <==> Seen(timeline).Some?);
    assert s.lastResetGt == LastCapout(timeline).GetOr(LONG_AGO);
  }

  lemma FirstRemembers(defaults: bool, e: Entry)
    ensures Remembers(defaults, [e])
  {
    var one := [e];
    assert Front(one) == [] && Analyze(defaults, one) == Step(defaults, INIT, e);
    StepRemembers(defaults, INIT, e);
    hide Step, Analyze;
    assert SinceReset(defaults, one) == 0 && LastCapout(one) == LastCapout([]) == None && !Falls(one);
  }

  // ---- What a reset leaves ----

  /** No weight, no violated model, no lock, no candidate, and a grid test that starts over. */
  ghost predicate Forgotten(s: State) {
    && s.model.w.None? && !s.model.wFailed && s.model.wStreak == 0
    && !s.phase.locked && s.phase.cand.None? && s.phase.period == 0.0 && s.phase.strikes == 0 && s.phase.blindRolls == 0
    && s.grid.seen == 0 && s.grid.miss == 0 && s.grid.ok
  }

  lemma StepForgets(defaults: bool, s: State, e: Entry)
    requires
      || e.Half() != s.half || e.Gt() < s.lastGt - 1.0
      || (e.Score? && s.seeded && (e.frame.allies < s.prevA || e.frame.axis < s.prevX))
    ensures var r := Step(defaults, s, e);
      Forgotten(r) && r.ticks == s.ticks && r.locks == s.locks
  {
    hide Learn, IsOnGrid, SlotOf, InPhase, CheckGrid, Judge;
  }

  lemma NextOnlySeeds(defaults: bool, s: State, e: Entry)
    requires Forgotten(s) && !s.seeded && e.Score?
    ensures var r := Step(defaults, s, e);
      Forgotten(r) && r.ticks == s.ticks && r.locks == s.locks && r.rejected == s.rejected && r.seeded
  {
    hide Judge;
  }

  /** An entry of another half, one that steps back in time and one that lowers a score leave nothing learned and
      nothing locked, and confirm nothing; and after a fall the next score of that half only seeds. */
  lemma ResetForgets(defaults: bool, timeline: seq<Entry>)
    requires Resets(timeline)
    ensures
      var s, before := Analyze(defaults, timeline), Analyze(defaults, Front(timeline));
      && Forgotten(s) && s.ticks == before.ticks && s.locks == before.locks
      && (Falls(timeline) ==> !s.seeded && |s.rejected| == |before.rejected| + 1 && before.rejected <= s.rejected
                              && s.rejected[|before.rejected|].reason == Negative)
    ensures Falls(timeline) ==> forall e: Entry :: e.Score? ==>
      var s, r := Analyze(defaults, timeline), Analyze(defaults, timeline + [e]);
      Forgotten(r) && r.ticks == s.ticks && r.locks == s.locks && r.rejected == s.rejected && r.seeded
  {
    var before, e := Analyze(defaults, Front(timeline)), Final(timeline);
    TimelineIsRemembered(defaults, Front(timeline));
    if |timeline| == 1 {
      FirstForgets(defaults, timeline);
    } else {
      StepForgets(defaults, before, e);
    }
    if Falls(timeline) {
      FallIsNegative(defaults, before, e);
      forall next: Entry | next.Score?
        ensures
          var s, r := Analyze(defaults, timeline), Analyze(defaults, timeline + [next]);
          Forgotten(r) && r.ticks == s.ticks && r.locks == s.locks && r.rejected == s.rejected && r.seeded
      {
        assert (timeline + [next])[..|timeline|] == timeline;
        NextOnlySeeds(defaults, Analyze(defaults, timeline), next);
      }
    }
  }

  lemma FirstForgets(defaults: bool, timeline: seq<Entry>)
    requires |timeline| == 1
    ensures
      var s := Analyze(defaults, timeline);
      Forgotten(s) && s.ticks == [] && s.locks == [] && Analyze(defaults, Front(timeline)) == INIT
  {
    assert Front(timeline) == [];
    hide Judge;
  }

  lemma FallIsNegative(defaults: bool, s: State, e: Entry)
    requires e.Half() == s.half && e.Gt() >= s.lastGt - 1.0
    requires e.Score? && s.seeded && (e.frame.allies < s.prevA || e.frame.axis < s.prevX)
    ensures var r := Step(defaults, s, e);
      !r.seeded && |r.rejected| == |s.rejected| + 1 && s.rejected <= r.rejected
      && r.rejected[|s.rejected|].reason == Negative
  {
    hide Judge, Roll;
  }

  /** So on every timeline the weight is known exactly when one weight in 1..8 and no other pays every clean tick
      confirmed since the latest reset of the timeline. */
  lemma WeightSinceReset(timeline: seq<Entry>)
    ensures
      var s, n := Analyze(true, timeline), SinceReset(true, timeline);
      n <= |s.ticks| && ModelInv(s.model, s.ticks[n..])
  {
    WeightIsTheOneThatFits(timeline);
    TimelineIsRemembered(true, timeline);
  }

  // ---- The verdict on a score ----

  /** Why a gain is turned away before it is judged, if it is; `capout` is the game time of the latest capout. */
  function TurnedAwayFor(g: (int, int), gt: real, capout: real): Option<RejectReason> {
    if g == (0, 0) then Some(Zero)
    else if g.0 >= 20 || g.1 >= 20 then Some(Capout)
    else if gt < capout + 3.0 then Some(ResetWindow)
    else None
  }

  /** The state in which a gain is judged: the scores and the time noted, the phase rolled. */
  function RolledTo(s: State, f: Frame): State {
    s.(lastGt := f.gt, phase := Roll(s.phase, f.gt, f.heldAllies + f.heldAxis), prevA := f.allies, prevX := f.axis)
  }

  lemma StepVerdict(defaults: bool, s: State, f: Frame)
    requires f.half == s.half && f.gt >= s.lastGt - 1.0 && s.seeded && f.allies >= s.prevA && f.axis >= s.prevX
    ensures
      var r, t, g := Step(defaults, s, Score(f)), RolledTo(s, f), (f.allies - s.prevA, f.axis - s.prevX);
      match TurnedAwayFor(g, f.gt, s.lastResetGt)
      case None => r == Judge(defaults, t, f.(allies := g.0, axis := g.1))
      case Some(why) =>
        r == t.(rejected := s.rejected + [RejectedFrame(f.half, f.gt, g.0, g.1, why)],
                phase := if why == Capout then Phase(0.0, None, 0.0, false, 0, 0) else t.phase,
                lastResetGt := if why == Capout then f.gt else s.lastResetGt)
  {
    hide Roll, Judge;
  }

  /** A score that comes neither first nor with a reset, by its gain over the one last seen: no gain is turned away;
      20 points or more for a team is a capout, which drops the lock and the candidate and keeps the weight; less than
      3 s of game time after a capout it is turned away; any other is judged by grid and phase. */
  lemma VerdictIsTold(defaults: bool, timeline: seq<Entry>)
    requires timeline != [] && Final(timeline).Score? && !Resets(timeline) && Seen(Front(timeline)).Some?
    ensures
      var s, r, f := Analyze(defaults, Front(timeline)), Analyze(defaults, timeline), Final(timeline).frame;
      var g, t := GainOf(Seen(Front(timeline)).value, f), RolledTo(s, f);
      match TurnedAwayFor(g, f.gt, LastCapout(Front(timeline)).GetOr(LONG_AGO))
      case None => r == Judge(defaults, t, f.(allies := g.0, axis := g.1))
      case Some(why) =>
        r == t.(rejected := s.rejected + [RejectedFrame(f.half, f.gt, g.0, g.1, why)],
                phase := if why == Capout then Phase(0.0, None, 0.0, false, 0, 0) else t.phase,
                lastResetGt := if why == Capout then f.gt else s.lastResetGt)
  {
    TimelineIsRemembered(defaults, Front(timeline));
    var s, e := Analyze(defaults, Front(timeline)), Final(timeline);
    assert Front(timeline) != [] && e == Score(e.frame);
    StepVerdict(defaults, s, e.frame);
    hide Step, Judge, Roll, SinceReset, LastCapout;
  }

  function HalfSecond(n: int): real { n as real / 2.0 }

  /** More than 0.06 s off every half second. */
  ghost predicate OffHalfSeconds(gt: real) { forall n: int :: Abs(gt - HalfSecond(n)) > 0.06 }

  lemma NearestHalfSecond(gt: real)
    ensures IsOnGrid(gt) <==> !OffHalfSeconds(gt)
  {
    var q := gt / 0.5;
    var k := Round(q);
    assert q == gt * 2.0;
    assert Abs(q - k as real) * 0.5 == Abs(gt - HalfSecond(k));
    if !OffHalfSeconds(gt) {
      var n: int :| Abs(gt - HalfSecond(n)) <= 0.06;
      assert n == k;
    }
  }

  /** In phase with a lock: within a quarter of a second of some whole number of periods past the anchor. */
  ghost predicate OnPhaseBy(p: Phase, gt: real, k: int) {
    k >= 1 && -0.25 <= gt - p.anchor - k as real * p.period <= 0.25
  }

  lemma Between(q: real, k: real, period: real, d: real, x: real)
    requires period > 0.0 && q * period == d && k * period == x && x - d < 0.5 * period && d - x < 0.5 * period
    ensures k - 0.5 <= q < k + 0.5
  {
    var r := q - k;
    assert r * period == d - x;
    if r >= 0.5 {
      Scale(0.5, r, period);
    } else if r <= -0.5 {
      Scale(r, -0.5, period);
    }
  }

  /** Within half a period of `k` periods, `k` is the nearest whole number of them. */
  lemma Nearest(d: real, period: real, k: int, x: real)
    requires period > 0.0 && x == k as real * period && x - d < 0.5 * period && d - x < 0.5 * period
    ensures Round(d / period) == k
  {
    hide Round;
    var q := d / period;
    assert q * period == d;
    Between(q, k as real, period, d, x);
    RoundsDown(q, k);
  }

  lemma RoundsDown(q: real, k: int)
    requires k as real - 0.5 <= q < k as real + 0.5
    ensures Round(q) == k
  {
  }

  lemma WithinHalf(d: real, x: real, period: real)
    requires period > 0.5 && -0.25 <= d - x <= 0.25
    ensures x - d < 0.5 * period && d - x < 0.5 * period
  {
  }

  lemma OnlyTheNearest(p: Phase, gt: real, k: int)
    requires p.period > 0.5 && OnPhaseBy(p, gt, k)
    ensures SlotOf(p, gt) == k && InPhase(p, gt, k)
  {
    var x := k as real * p.period;
    WithinHalf(gt - p.anchor, x, p.period);
    Nearest(gt - p.anchor, p.period, k, x);
    hide Round;
  }

  /** A judged gain: off the half seconds it is turned away, unless the first twelve judged since a reset all were,
      which turns the test off for good; under a lock it is confirmed if some number of periods past the last tick is
      within a quarter second, and re-measures the period if that number is one; without one it pairs with a candidate
      20 to 45 s before it, or becomes the candidate, unless a capture contaminates it. */
  lemma JudgementIsTold(defaults: bool, s: State, f: Frame)
    requires s.phase.locked ==> s.phase.period > 0.5
    ensures
      var r, off := Judge(defaults, s, f), OffHalfSeconds(f.gt);
      var counts := s.grid.ok && s.grid.seen < 12;
      var missed := s.grid.miss + if counts && off then 1 else 0;
      var fails := counts && s.grid.seen == 11 && missed == 12;
      && r.grid == Grid(s.grid.seen + if counts then 1 else 0, missed, s.grid.ok && !fails, s.grid.disabled || fails)
      && (if r.grid.ok && off then
            TurnedAway(s, r, f, OffGrid) && r.phase == s.phase
          else if s.phase.locked then
            if exists k :: OnPhaseBy(s.phase, f.gt, k) then
              exists k :: OnPhaseBy(s.phase, f.gt, k)
                && r.ticks == s.ticks + [ConfirmedTick(f, s.phase.period, k)]
                && r.rejected == s.rejected && r.locks == s.locks
                && r.phase == s.phase.(anchor := f.gt, strikes := 0, blindRolls := 0,
                                       period := if k == 1 then f.gt - s.phase.anchor else s.phase.period)
            else TurnedAway(s, r, f, OffPhase) && r.phase == s.phase
          else if f.capDirty then TurnedAway(s, r, f, CapDirty) && r.phase == s.phase
          else if s.phase.cand.Some? && 20.0 <= f.gt - s.phase.cand.value.gt <= 45.0 then
            var gap := f.gt - s.phase.cand.value.gt;
            && r.ticks == s.ticks + [ConfirmedTick(s.phase.cand.value, gap, 0), ConfirmedTick(f, gap, 1)]
            && r.locks == s.locks + [LockEvent(f.half, f.gt, gap)] && r.rejected == s.rejected
            && r.phase == Phase(f.gt, None, gap, true, 0, 0)
          else
            && r.ticks == s.ticks && r.locks == s.locks && r.model == s.model && r.phase == s.phase.(cand := Some(f))
            && r.rejected == s.rejected + if s.phase.cand.Some?
                                          then [RejectedFrame(f.half, f.gt, f.allies, f.axis, Bootstrap)] else [])
  {
    NearestHalfSecond(f.gt);
    hide IsOnGrid, Learn, OffHalfSeconds;
    if s.phase.locked {
      var k := SlotOf(s.phase, f.gt);
      assert InPhase(s.phase, f.gt, k) ==> OnPhaseBy(s.phase, f.gt, k);
      forall n | OnPhaseBy(s.phase, f.gt, n) ensures n == k && InPhase(s.phase, f.gt, k) {
        OnlyTheNearest(s.phase, f.gt, n);
      }
      hide SlotOf, InPhase, OnPhaseBy;
    }
  }

  ghost predicate TurnedAway(s: State, r: State, f: Frame, reason: RejectReason) {
    && r.rejected == s.rejected + [RejectedFrame(f.half, f.gt, f.allies, f.axis, reason)]
    && r.ticks == s.ticks && r.locks == s.locks && r.model == s.model
  }

  // ---- What is noted on the way ----

  /** `r` notes no mismatch that `s` did not, or one more, of an award confirmed between them. */
  ghost predicate NotesMismatch(s: State, r: State) {
    && s.ticks <= r.ticks
    && if r.model.wFailed && !s.model.wFailed then
         exists i :: |s.ticks| <= i < |r.ticks| && r.model.mismatches == s.model.mismatches + [r.ticks[i].award]
       else r.model.mismatches == s.model.mismatches
  }

  lemma LearnNotes(defaults: bool, m: Model, f: Frame)
    ensures var r := Learn(defaults, m, f);
      && (m.wFailed ==> r == m)
      && r.mismatches == if r.wFailed && !m.wFailed then m.mismatches + [f] else m.mismatches
  {
    hide ImpliedWeight;
  }

  lemma JudgeNotes(defaults: bool, s: State, f: Frame)
    ensures NotesMismatch(s, Judge(defaults, s, f))
  {
    LearnNotes(defaults, s.model, f);
    if s.phase.cand.Some? {
      LearnNotes(defaults, s.model, s.phase.cand.value);
      LearnNotes(defaults, Learn(defaults, s.model, s.phase.cand.value), f);
    }
    var r := Judge(defaults, s, f);
    hide Learn, IsOnGrid, SlotOf, InPhase;
    if |r.ticks| > |s.ticks| {
      assert r.ticks[|r.ticks| - 1].award == f;
      if |r.ticks| == |s.ticks| + 2 {
        assert r.ticks[|s.ticks|].award == s.phase.cand.value;
      }
    }
  }

  /** The grid test goes off for the rest of the recording only as it fails, and is never off without being noted. */
  ghost predicate NotesGrid(s: State, r: State) {
    && (s.grid.disabled ==> r.grid.disabled)
    && (r.grid.disabled && !s.grid.disabled ==> r.grid == Grid(12, 12, false, true))
    && ((!s.grid.ok ==> s.grid.disabled) ==> (!r.grid.ok ==> r.grid.disabled))
  }

  lemma StepNotesMismatch(defaults: bool, s: State, e: Entry)
    ensures NotesMismatch(s, Step(defaults, s, e))
  {
    hide Roll, Judge;
    var entered := if e.Half() != s.half || e.Gt() < s.lastGt - 1.0 then ResetAll(s.(half := e.Half())) else s;
    var rolled := entered.(lastGt := e.Gt(), phase := Roll(entered.phase, e.Gt(), e.Held()));
    if e.Score? {
      var f := e.frame.(allies := e.frame.allies - rolled.prevA, axis := e.frame.axis - rolled.prevX);
      JudgeNotes(defaults, rolled.(prevA := e.frame.allies, prevX := e.frame.axis), f);
    }
  }

  lemma StepNotesGrid(defaults: bool, s: State, e: Entry)
    ensures NotesGrid(s, Step(defaults, s, e))
  {
    hide Roll, Learn, IsOnGrid, SlotOf, InPhase;
  }

  /** On every timeline an entry notes a mismatch exactly when it violates an award model that was not, and then of an
      award it confirms; resets forget none; and the grid test is off for the rest exactly once twelve in a row of the
      first judged scores missed it. */
  lemma MismatchesAreNoted(defaults: bool, timeline: seq<Entry>)
    requires timeline != []
    ensures
      var s, r := Analyze(defaults, Front(timeline)), Analyze(defaults, timeline);
      NotesMismatch(s, r) && NotesGrid(s, r)
    ensures Analyze(defaults, []).model.mismatches == [] && !Analyze(defaults, []).grid.disabled
  {
    StepNotesMismatch(defaults, Analyze(defaults, Front(timeline)), Final(timeline));
    StepNotesGrid(defaults, Analyze(defaults, Front(timeline)), Final(timeline));
    hide Step, NotesMismatch;
  }

  lemma ProjectionOf(m: Model, ticks: seq<ConfirmedTick>, held: nat)
    requires ModelInv(m, ticks)
    ensures ProjectAward(m.w, held).Some? <==> exists w :: IsTheWeight(w, ticks)
    ensures forall w :: IsTheWeight(w, ticks) ==> ProjectAward(m.w, held) == Some(w * held)
  {
    hide Fits;
    if m.w.Some? {
      assert IsTheWeight(m.w.value, ticks);
      FitsInRange(m.w.value, ticks);
      forall w | IsTheWeight(w, ticks) ensures w == m.w.value {
        assert Fits(m.w.value, ticks);
      }
    } else {
      if !m.wFailed {
        AllDirtyFits(ticks, 1);
        AllDirtyFits(ticks, 2);
      }
      forall w ensures !IsTheWeight(w, ticks) {
        assert m.wFailed ==> !Fits(w, ticks);
        assert !m.wFailed ==> Fits(if w == 1 then 2 else 1, ticks);
      }
    }
  }

  /** An award is projected exactly while one weight and no other pays the clean ticks since the latest reset, and then
      it is that weight for every point held. */
  lemma ProjectedExactlyWhen(timeline: seq<Entry>, held: nat)
    ensures SinceReset(true, timeline) <= |Analyze(true, timeline).ticks|
    ensures
      var s := Analyze(true, timeline);
      var ticks, award := s.ticks[SinceReset(true, timeline)..], ProjectAward(s.model.w, held);
      && (award.Some? <==> exists w :: IsTheWeight(w, ticks))
      && forall w :: IsTheWeight(w, ticks) ==> award == Some(w * held)
  {
    WeightSinceReset(timeline);
    hide Analyze, SinceReset, IsTheWeight, ModelInv, ProjectAward;
    var s := Analyze(true, timeline);
    ProjectionOf(s.model, s.ticks[SinceReset(true, timeline)..], held);
  }

  ghost predicate IsTheWeight(w: int, ticks: seq<ConfirmedTick>) { forall v :: Fits(v, ticks) <==> v == w }

  lemma StepLearnsNothing(s: State, e: Entry)
    requires s.model == Model(None, 0, false, [])
    ensures Step(false, s, e).model == s.model
  {
    hide Roll, IsOnGrid, SlotOf, InPhase, CheckGrid;
  }

  /** Without the default owners no weight is learned and no mismatch noted. */
  lemma {:induction false} NoOwnersNoModel(timeline: seq<Entry>)
    ensures Analyze(false, timeline).model == Model(None, 0, false, [])
  {
    hide Step;
    if timeline != [] {
      NoOwnersNoModel(Front(timeline));
      StepLearnsNothing(Analyze(false, Front(timeline)), Final(timeline));
    }
  }

  // ---- Silent slots ----

  /** The `n`th slot after the anchor. */
  function AtSlot(p: Phase, n: int): real { p.anchor + n as real * p.period }

  /** `n` slots have passed by `gt`, and no more: a slot passes three quarters of a second after its instant. */
  ghost predicate SlotsPassed(p: Phase, gt: real, n: nat) {
    gt <= AtSlot(p, n + 1) + 0.75 && (n > 0 ==> gt > AtSlot(p, n) + 0.75)
  }

  lemma SlotsFrom(p: Phase, q: Phase, n: int)
    requires q.period == p.period && q.anchor == AtSlot(p, 1)
    ensures AtSlot(q, n) == AtSlot(p, n + 1)
  {
    AddPeriod(n, p.period);
  }

  lemma FirstSlots(p: Phase)
    ensures AtSlot(p, 0) == p.anchor && AtSlot(p, 1) == p.anchor + p.period
  {
  }

  lemma LaterSlots(p: Phase, n: nat)
    requires p.period > 0.0 && n >= 1
    ensures AtSlot(p, 1) <= AtSlot(p, n)
  {
    Scale(1.0, n as real, p.period);
  }

  /** The phase after a lock has passed over `n` silent slots: with nothing held, eight since the last tick at most, and
      strikes start over; with something held, one that makes two in a row drops it. Dropped, nothing is left. */
  function PassedOver(p: Phase, held: nat, n: nat): Phase {
    if n == 0 then p
    else if p.blindRolls + n > 8 || (held != 0 && p.strikes + n >= 2) then Phase(0.0, None, 0.0, false, 0, 0)
    else p.(anchor := AtSlot(p, n), blindRolls := p.blindRolls + n, strikes := if held == 0 then 0 else p.strikes + n)
  }

  lemma PassedOverInTurn(p: Phase, q: Phase, held: nat, n: nat)
    requires n >= 1 && 0 <= p.strikes < 2
    requires q == p.(anchor := AtSlot(p, 1), blindRolls := p.blindRolls + 1,
                     strikes := if held == 0 then 0 else p.strikes + 1)
    requires p.blindRolls < 8 && (held != 0 ==> p.strikes + 1 < 2)
    ensures PassedOver(p, held, n) == PassedOver(q, held, n - 1)
  {
    hide AtSlot;
    SlotsFrom(p, q, n - 1);
  }

  /** Rolling a lock to a game time passes over exactly the slots that have passed by then. */
  lemma {:induction false} RollExactly(p: Phase, gt: real, held: nat, n: nat)
    requires p.locked && p.period > 0.0 && 0 <= p.strikes < 2 && 0 <= p.blindRolls <= 8 && SlotsPassed(p, gt, n)
    ensures Roll(p, gt, held) == PassedOver(p, held, n)
    decreases n
  {
    hide AtSlot, PassedOver;
    FirstSlots(p);
    if n == 0 {
      NonePassed(p, held);
    } else {
      LaterSlots(p, n);
      if p.blindRolls == 8 || (held != 0 && p.strikes + 1 >= 2) {
        Dropped(p, held, n);
      } else {
        var q := p.(anchor := AtSlot(p, 1), blindRolls := p.blindRolls + 1,
                    strikes := if held == 0 then 0 else p.strikes + 1);
        SlotsFrom(p, q, n - 1);
        SlotsFrom(p, q, n);
        RollExactly(q, gt, held, n - 1);
        PassedOverInTurn(p, q, held, n);
      }
    }
  }

  lemma NonePassed(p: Phase, held: nat)
    ensures PassedOver(p, held, 0) == p
  {
  }

  lemma Dropped(p: Phase, held: nat, n: nat)
    requires n >= 1 && (p.blindRolls >= 8 || (held != 0 && p.strikes + 1 >= 2))
    ensures PassedOver(p, held, n) == NO_PHASE
  {
  }
}
