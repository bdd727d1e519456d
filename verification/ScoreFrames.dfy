/** From the recorded event stream to the estimator's timeline: score messages collapsed into frames,
    captures with the ownership in force before them, both in game-time order. */
module ScoreFrames {
  import opened Wrappers
  import opened ScoreTick

  const TICK_CAP_PROXIMITY := 0.3
  const TICK_CAP_DEFER := 0.5

  datatype Owner = Allies | Axis | Neutral
  datatype FlagId = FlagId(number: int)

  /** A recorded event; None stands for a field that is missing or not a number. */
  datatype StreamEvent =
    | FlagsInit(half: int, owners: seq<(FlagId, Owner)>)
    | FlagCaptured(half: int, gt: Option<real>, taken: Option<(FlagId, Owner)>)
    | TeamScore(half: int, gt: Option<real>, scores: Option<(int, int)>)
    | Other(half: int)

  datatype Builder = Builder(
    half: int, owner: map<FlagId, Owner>, lastCapGt: real, pending: Option<Frame>, timeline: seq<Entry>)

  const START := Builder(0, map[], LONG_AGO, None, [])

  type Defaults = Option<map<FlagId, Owner>>

  function MaxOf(a: int, b: int): int { if a < b then b else a }

  /** The flags `side` holds away from their default owner. */
  function FlagsHeld(defaults: Defaults, owner: map<FlagId, Owner>, ids: set<FlagId>, side: Owner): set<FlagId> {
    set id | id in ids && id in owner && owner[id] == side && defaults.Some?
             && id in defaults.value && defaults.value[id] != side
  }

  function NonDefaultHeld(defaults: Defaults, owner: map<FlagId, Owner>, side: Owner): nat {
    |FlagsHeld(defaults, owner, owner.Keys, side)|
  }

  /** Messages belong to one frame when they agree on the half and on the game time to the millisecond. */
  predicate SameFrame(f: Frame, half: int, gt: real) {
    f.half == half && Round(f.gt * 1000.0) == Round(gt * 1000.0)
  }

  function Close(b: Builder): Builder {
    if b.pending.None? then b else b.(pending := None, timeline := b.timeline + [Score(b.pending.value)])
  }

  function Enter(b: Builder, half: int): Builder {
    if half == b.half then b
    else Close(b).(half := half, owner := map[], lastCapGt := LONG_AGO)
  }

  function SetOwners(owner: map<FlagId, Owner>, owners: seq<(FlagId, Owner)>): map<FlagId, Owner> {
    if owners == [] then owner
    else SetOwners(owner, owners[..|owners| - 1])[owners[|owners| - 1].0 := owners[|owners| - 1].1]
  }

  function Capture(defaults: Defaults, b: Builder, gt: Option<real>, taken: Option<(FlagId, Owner)>): Builder {
    var noted :=
      if gt.None? then b
      else
        var c := Close(b);
        c.(lastCapGt := gt.value,
           timeline := c.timeline + [Cap(b.half, gt.value, NonDefaultHeld(defaults, b.owner, Allies),
                                         NonDefaultHeld(defaults, b.owner, Axis))]);
    if taken.Some? then noted.(owner := noted.owner[taken.value.0 := taken.value.1]) else noted
  }

  /** One score message: it joins the pending frame with the greater score of each team, or opens its own. */
  function Message(defaults: Defaults, b: Builder, gt: real, allies: int, axis: int): Builder {
    if b.pending.Some? && SameFrame(b.pending.value, b.half, gt) then
      var f := b.pending.value;
      b.(pending := Some(f.(allies := MaxOf(f.allies, allies), axis := MaxOf(f.axis, axis))))
    else
      Close(b).(pending := Some(Frame(
        b.half, gt, allies, axis, NonDefaultHeld(defaults, b.owner, Allies), NonDefaultHeld(defaults, b.owner, Axis),
        gt - b.lastCapGt <= TICK_CAP_PROXIMITY)))
  }

  function Take(defaults: Defaults, b: Builder, e: StreamEvent): Builder {
    var b := Enter(b, e.half);
    match e
    case FlagsInit(_, owners) => b.(owner := SetOwners(b.owner, owners))
    case FlagCaptured(_, gt, taken) => Capture(defaults, b, gt, taken)
    case TeamScore(_, gt, scores) =>
      if gt.None? || scores.None? then b else Message(defaults, b, gt.value, scores.value.0, scores.value.1)
    case Other(_) => b
  }

  function TakeAll(defaults: Defaults, b: Builder, events: seq<StreamEvent>): Builder {
    if events == [] then b
    else Take(defaults, TakeAll(defaults, b, events[..|events| - 1]), events[|events| - 1])
  }

  /** Half, then game time, then captures before frames. */
  predicate NotAfter(p: Entry, q: Entry) {
    p.Half() < q.Half()
    || (p.Half() == q.Half() && (p.Gt() < q.Gt() || (p.Gt() == q.Gt() && (p.Cap? || q.Score?))))
  }

  function InsertEntry(s: seq<Entry>, x: Entry): (r: seq<Entry>)
    ensures multiset(r) == multiset(s) + multiset{x}
  {
    if s == [] || NotAfter(s[|s| - 1], x) then s + [x]
    else
      assert s == s[..|s| - 1] + [s[|s| - 1]];
      InsertEntry(s[..|s| - 1], x) + [s[|s| - 1]]
  }

  function SortEntries(s: seq<Entry>): (r: seq<Entry>)
    ensures multiset(r) == multiset(s)
  {
    if s == [] then []
    else
      assert s == s[..|s| - 1] + [s[|s| - 1]];
      InsertEntry(SortEntries(s[..|s| - 1]), s[|s| - 1])
  }

  /** A capture record can trail the capture, so the window reaches back past it as well. */
  predicate NearCap(c: Entry, f: Frame) {
    c.Cap? && c.half == f.half
    && c.gt - TICK_CAP_DEFER - TICK_CAP_PROXIMITY <= f.gt <= c.gt + TICK_CAP_PROXIMITY
  }

  function Mark(timeline: seq<Entry>, e: Entry): Entry {
    if e.Score? && exists c :: c in timeline && NearCap(c, e.frame) then Score(e.frame.(capDirty := true)) else e
  }

  function MarkAll(timeline: seq<Entry>): seq<Entry> {
    seq(|timeline|, i requires 0 <= i < |timeline| => Mark(timeline, timeline[i]))
  }

  function Timeline(defaults: Defaults, events: seq<StreamEvent>): seq<Entry> {
    MarkAll(SortEntries(Close(TakeAll(defaults, START, events)).timeline))
  }

  class FrameBuilder {
    const defaults: Defaults
    var half: int
    var owner: map<FlagId, Owner>
    var lastCapGt: real
    var pending: Option<Frame>
    var timeline: seq<Entry>

    constructor (defaults: Defaults)
      ensures this.defaults == defaults && View() == START
    {
      this.defaults := defaults;
      half, owner, lastCapGt, pending, timeline := 0, map[], LONG_AGO, None, [];
    }

    ghost function View(): Builder
      reads this
    {
      Builder(half, owner, lastCapGt, pending, timeline)
    }

    method CountHeld(side: Owner) returns (n: nat)
      ensures n == NonDefaultHeld(defaults, owner, side)
    {
      n := 0;
      if defaults.None? {
        assert FlagsHeld(defaults, owner, owner.Keys, side) == {};
        return;
      }
      var todo := owner.Keys;
      assert FlagsHeld(defaults, owner, owner.Keys - todo, side) == {};
      while todo != {}
        invariant todo <= owner.Keys
        invariant n == |FlagsHeld(defaults, owner, owner.Keys - todo, side)|
        decreases todo
      {
        var id :| id in todo;
        ghost var was := FlagsHeld(defaults, owner, owner.Keys - todo, side);
        todo := todo - {id};
        ghost var are := FlagsHeld(defaults, owner, owner.Keys - todo, side);
        if owner[id] == side && id in defaults.value && defaults.value[id] != side {
          n := n + 1;
          assert are == was + {id};
        } else {
          assert are == was;
        }
      }
      assert owner.Keys - todo == owner.Keys;
    }

    method ClosePending()
      modifies this`pending, this`timeline
      ensures View() == Close(old(View()))
    {
      if pending.Some? {
        timeline := timeline + [Score(pending.value)];
        pending := None;
      }
    }

    method EnterHalf(eHalf: int)
      modifies this
      ensures View() == Enter(old(View()), eHalf)
    {
      if eHalf != half {
        ClosePending();
        half, owner, lastCapGt := eHalf, map[], LONG_AGO;
      }
    }

    method InitFlags(owners: seq<(FlagId, Owner)>)
      modifies this`owner
      ensures View() == old(View()).(owner := SetOwners(old(owner), owners))
    {
      for i := 0 to |owners|
        invariant owner == SetOwners(old(owner), owners[..i])
      {
        assert owners[..i + 1][..i] == owners[..i];
        owner := owner[owners[i].0 := owners[i].1];
      }
      assert owners[..|owners|] == owners;
    }

    method NoteCapture(gt: Option<real>, taken: Option<(FlagId, Owner)>)
      modifies this
      ensures View() == Capture(defaults, old(View()), gt, taken)
    {
      if gt.Some? {
        ClosePending();
        lastCapGt := gt.value;
        var heldAllies := CountHeld(Allies);
        var heldAxis := CountHeld(Axis);
        timeline := timeline + [Cap(half, gt.value, heldAllies, heldAxis)];
      }
      if taken.Some? {
        owner := owner[taken.value.0 := taken.value.1];
      }
    }

    method NoteScore(gt: real, allies: int, axis: int)
      modifies this`pending, this`timeline
      ensures View() == Message(defaults, old(View()), gt, allies, axis)
    {
      if pending.Some? && SameFrame(pending.value, half, gt) {
        var f := pending.value;
        pending := Some(f.(allies := MaxOf(f.allies, allies), axis := MaxOf(f.axis, axis)));
      } else {
        ClosePending();
        var heldAllies := CountHeld(Allies);
        var heldAxis := CountHeld(Axis);
        pending := Some(Frame(half, gt, allies, axis, heldAllies, heldAxis, gt - lastCapGt <= TICK_CAP_PROXIMITY));
      }
    }

    method Feed(e: StreamEvent)
      modifies this
      ensures View() == Take(defaults, old(View()), e)
    {
      hide Enter, Capture, Message, SetOwners;
      EnterHalf(e.half);
      match e
      case FlagsInit(_, owners) => InitFlags(owners);
      case FlagCaptured(_, gt, taken) => NoteCapture(gt, taken);
      case TeamScore(_, gt, scores) =>
        if gt.Some? && scores.Some? {
          NoteScore(gt.value, scores.value.0, scores.value.1);
        }
      case Other(_) =>
    }
  }

  /** Mark the frames a capture explains, in both directions. */
  method MarkNearCaps(timeline: seq<Entry>) returns (marked: seq<Entry>)
    ensures marked == MarkAll(timeline)
  {
    marked := [];
    for i := 0 to |timeline|
      invariant marked == MarkAll(timeline)[..i]
    {
      var e := timeline[i];
      if e.Score? {
        var dirty, j := false, 0;
        while j < |timeline| && !dirty
          invariant 0 <= j <= |timeline|
          invariant dirty <==> exists k :: 0 <= k < j && NearCap(timeline[k], e.frame)
        {
          dirty := NearCap(timeline[j], e.frame);
          j := j + 1;
        }
        if dirty {
          var k :| 0 <= k < j && NearCap(timeline[k], e.frame);
          assert timeline[k] in timeline;
          e := Score(e.frame.(capDirty := true));
        }
      }
      marked := marked + [e];
    }
  }

  method BuildFrames(defaults: Defaults, events: seq<StreamEvent>) returns (timeline: seq<Entry>)
    ensures timeline == Timeline(defaults, events)
  {
    hide Take, Close, MarkAll, SortEntries;
    var builder := new FrameBuilder(defaults);
    for i := 0 to |events|
      invariant fresh(builder) && builder.defaults == defaults
      invariant builder.View() == TakeAll(defaults, START, events[..i])
    {
      assert events[..i + 1][..i] == events[..i];
      builder.Feed(events[i]);
    }
    assert events[..|events|] == events;
    builder.ClosePending();
    timeline := MarkNearCaps(SortEntries(builder.timeline));
  }

  // Ownership, told from the stream

  function HalfOf(events: seq<StreamEvent>): int { if events == [] then 0 else events[|events| - 1].half }

  /** The last report of the flag in a list of owners. */
  function ReportIn(owners: seq<(FlagId, Owner)>, id: FlagId): Option<Owner> {
    if owners == [] then None
    else if owners[|owners| - 1].0 == id then Some(owners[|owners| - 1].1)
    else ReportIn(owners[..|owners| - 1], id)
  }

  /** Who the latest report since the half began says holds the flag. */
  function Holder(events: seq<StreamEvent>, id: FlagId): Option<Owner> {
    if events == [] then None
    else
      var front, e := events[..|events| - 1], events[|events| - 1];
      var before := if HalfOf(front) == e.half then Holder(front, id) else None;
      match e
      case FlagsInit(_, owners) => if ReportIn(owners, id).Some? then ReportIn(owners, id) else before
      case FlagCaptured(_, _, taken) => if taken.Some? && taken.value.0 == id then Some(taken.value.1) else before
      case _ => before
  }

  /** The game time of the latest capture since the half began. */
  function LatestCapture(events: seq<StreamEvent>): Option<real> {
    if events == [] then None
    else
      var front, e := events[..|events| - 1], events[|events| - 1];
      if e.FlagCaptured? && e.gt.Some? then e.gt
      else if HalfOf(front) == e.half then LatestCapture(front)
      else None
  }

  lemma {:induction false} LatestCaptureIsTold(defaults: Defaults, events: seq<StreamEvent>)
    ensures TakeAll(defaults, START, events).half == HalfOf(events)
    ensures TakeAll(defaults, START, events).lastCapGt == LatestCapture(events).GetOr(LONG_AGO)
  {
    hide NonDefaultHeld, SameFrame, LONG_AGO;
    if events != [] {
      LatestCaptureIsTold(defaults, events[..|events| - 1]);
    }
  }

  lemma {:induction false} OwnersAreReported(owner: map<FlagId, Owner>, owners: seq<(FlagId, Owner)>, id: FlagId)
    ensures Get(SetOwners(owner, owners), id)
         == if ReportIn(owners, id).Some? then ReportIn(owners, id) else Get(owner, id)
  {
    if owners != [] {
      OwnersAreReported(owner, owners[..|owners| - 1], id);
    }
  }

  lemma {:induction false} OwnershipIsTold(defaults: Defaults, events: seq<StreamEvent>, id: FlagId)
    ensures Get(TakeAll(defaults, START, events).owner, id) == Holder(events, id)
    ensures TakeAll(defaults, START, events).half == HalfOf(events)
  {
    hide NonDefaultHeld, SameFrame, LONG_AGO;
    if events != [] {
      var front, e := events[..|events| - 1], events[|events| - 1];
      OwnershipIsTold(defaults, front, id);
      if e.FlagsInit? {
        OwnersAreReported(Enter(TakeAll(defaults, START, front), e.half).owner, e.owners, id);
      }
    }
  }

  /** The flags that count for `side`: those it was last reported to hold, whose default owner is known and is another
      side. */
  ghost predicate CountsFor(defaults: Defaults, events: seq<StreamEvent>, side: Owner, flags: set<FlagId>) {
    forall id :: id in flags <==>
      Holder(events, id) == Some(side) && defaults.Some? && id in defaults.value && defaults.value[id] != side
  }

  lemma HeldIsTold(defaults: Defaults, events: seq<StreamEvent>, side: Owner)
    ensures
      var b := TakeAll(defaults, START, events);
      CountsFor(defaults, events, side, FlagsHeld(defaults, b.owner, b.owner.Keys, side))
  {
    hide TakeAll;
    forall id {
      OwnershipIsTold(defaults, events, id);
    }
  }

  /** An entry's counts are how many flags count for each team. */
  ghost predicate CountsAre(defaults: Defaults, events: seq<StreamEvent>, heldAllies: nat, heldAxis: nat) {
    && (exists a :: CountsFor(defaults, events, Allies, a) && |a| == heldAllies)
    && (exists x :: CountsFor(defaults, events, Axis, x) && |x| == heldAxis)
  }

  lemma CountsAreTold(defaults: Defaults, events: seq<StreamEvent>)
    ensures
      var b := TakeAll(defaults, START, events);
      CountsAre(defaults, events, NonDefaultHeld(defaults, b.owner, Allies), NonDefaultHeld(defaults, b.owner, Axis))
  {
    hide TakeAll, CountsFor;
    HeldIsTold(defaults, events, Allies);
    HeldIsTold(defaults, events, Axis);
  }

  /** The timeline with the open frame behind it. */
  function Closed(b: Builder): seq<Entry> {
    b.timeline + if b.pending.Some? then [Score(b.pending.value)] else []
  }

  /** A timed capture of the half at hand enters the timeline behind the open frame, with the counts before it. */
  lemma CaptureCarriesCounts(defaults: Defaults, events: seq<StreamEvent>, e: StreamEvent)
    requires e.half == HalfOf(events) && e.FlagCaptured? && e.gt.Some?
    ensures
      var r := TakeAll(defaults, START, events + [e]);
      && r.pending.None? && r.timeline != []
      && r.timeline[..|r.timeline| - 1] == Closed(TakeAll(defaults, START, events))
      && var c := r.timeline[|r.timeline| - 1];
         c.Cap? && c.half == e.half && c.gt == e.gt.value && CountsAre(defaults, events, c.heldAllies, c.heldAxis)
  {
    assert (events + [e])[..|events|] == events;
    CountsAreTold(defaults, events);
    LatestCaptureIsTold(defaults, events);
    hide CountsAre, NonDefaultHeld, LONG_AGO, TakeAll, SetOwners, LatestCapture;
    assert TakeAll(defaults, START, events + [e]) == Take(defaults, TakeAll(defaults, START, events), e) by {
      TakeInParts(defaults, START, events, [e]);
      TakeOne(defaults, TakeAll(defaults, START, events), e);
    }
  }

  lemma TakeOne(defaults: Defaults, b: Builder, e: StreamEvent)
    ensures TakeAll(defaults, b, [e]) == Take(defaults, b, e)
  {
    hide Take;
    assert [e][..0] == [];
  }

  /** A score at another millisecond than the open frame closes it and opens its own with the counts of that moment,
      marked if it comes no later than 0.3 s after the half's latest capture. */
  lemma ScoreCarriesCounts(defaults: Defaults, events: seq<StreamEvent>, e: StreamEvent)
    requires e.half == HalfOf(events) && e.TeamScore? && e.gt.Some? && e.scores.Some?
    requires
      var b := TakeAll(defaults, START, events);
      b.pending.None? || b.pending.value.half != e.half
      || (b.pending.value.gt * 1000.0 + 0.5).Floor != (e.gt.value * 1000.0 + 0.5).Floor
    ensures
      var r := TakeAll(defaults, START, events + [e]);
      && r.timeline == Closed(TakeAll(defaults, START, events)) && r.pending.Some?
      && var f := r.pending.value;
         && f.half == e.half && f.gt == e.gt.value && (f.allies, f.axis) == e.scores.value
         && CountsAre(defaults, events, f.heldAllies, f.heldAxis)
         && (f.capDirty <==> e.gt.value <= LatestCapture(events).GetOr(LONG_AGO) + 0.3)
  {
    CountsAreTold(defaults, events);
    LatestCaptureIsTold(defaults, events);
    hide CountsAre, NonDefaultHeld, LONG_AGO, TakeAll, SetOwners, LatestCapture;
    assert TakeAll(defaults, START, events + [e]) == Take(defaults, TakeAll(defaults, START, events), e) by {
      TakeInParts(defaults, START, events, [e]);
      TakeOne(defaults, TakeAll(defaults, START, events), e);
    }
  }

  /** In the finished timeline a frame is marked if it was, or if a capture of its half lies between 0.8 s after it and
      0.3 s before it; nothing else changes. */
  lemma MarkedExactlyWhen(timeline: seq<Entry>, i: nat)
    requires i < |timeline| && timeline[i].Score?
    ensures |MarkAll(timeline)| == |timeline| && MarkAll(timeline)[i].Score?
    ensures
      var f, m := timeline[i].frame, MarkAll(timeline)[i].frame;
      && m == f.(capDirty := m.capDirty)
      && (m.capDirty <==> f.capDirty
                          || exists j :: 0 <= j < |timeline| && timeline[j].Cap? && timeline[j].half == f.half
                                         && timeline[j].gt - 0.8 <= f.gt <= timeline[j].gt + 0.3)
  {
    var f := timeline[i].frame;
    if j :| 0 <= j < |timeline| && timeline[j].Cap? && timeline[j].half == f.half
            && timeline[j].gt - 0.8 <= f.gt <= timeline[j].gt + 0.3 {
      assert NearCap(timeline[j], f) && timeline[j] in timeline;
    }
  }

  // Order of the timeline

  /** By half, then by game time, and at one game time captures first. */
  ghost predicate Chronological(s: seq<Entry>) {
    forall i, j :: 0 <= i < j < |s| ==>
      && s[i].Half() <= s[j].Half()
      && (s[i].Half() == s[j].Half() ==>
            s[i].Gt() <= s[j].Gt() && (s[i].Gt() == s[j].Gt() && s[i].Score? ==> s[j].Score?))
  }

  ghost predicate InOrder(s: seq<Entry>) { forall i, j :: 0 <= i < j < |s| ==> NotAfter(s[i], s[j]) }

  lemma {:induction false} InsertKeepsOrder(s: seq<Entry>, x: Entry)
    requires InOrder(s)
    ensures InOrder(InsertEntry(s, x))
  {
    if s != [] && !NotAfter(s[|s| - 1], x) {
      var front, last := s[..|s| - 1], s[|s| - 1];
      InsertKeepsOrder(front, x);
      var r := InsertEntry(front, x);
      forall i | 0 <= i < |r| ensures NotAfter(r[i], last) {
        assert r[i] in multiset(r);
        assert r[i] == x || r[i] in front;
      }
    }
  }

  lemma {:induction false} SortIsInOrder(s: seq<Entry>)
    ensures InOrder(SortEntries(s))
  {
    if s != [] {
      SortIsInOrder(s[..|s| - 1]);
      InsertKeepsOrder(SortEntries(s[..|s| - 1]), s[|s| - 1]);
    }
  }

  /** The estimator is fed in game-time order, captures first, whatever order the stream was recorded in. */
  lemma TimelineIsChronological(defaults: Defaults, events: seq<StreamEvent>)
    ensures Chronological(Timeline(defaults, events))
  {
    var raw := Close(TakeAll(defaults, START, events)).timeline;
    SortIsInOrder(raw);
    hide TakeAll, SortEntries;
    var sorted := SortEntries(raw);
    forall i | 0 <= i < |sorted|
      ensures MarkAll(sorted)[i].Cap? == sorted[i].Cap?
      ensures MarkAll(sorted)[i].Half() == sorted[i].Half() && MarkAll(sorted)[i].Gt() == sorted[i].Gt() {}
  }

  // A frame is its maximum

  function ScoresOf(half: int, gt: real, scores: seq<(int, int)>): seq<StreamEvent> {
    seq(|scores|, i requires 0 <= i < |scores| => TeamScore(half, Some(gt), Some(scores[i])))
  }

  /** Each team's greatest score among the messages. */
  function Peak(scores: seq<(int, int)>): (p: (int, int))
    requires scores != []
    ensures forall s :: s in scores ==> s.0 <= p.0 && s.1 <= p.1
    ensures (exists s :: s in scores && s.0 == p.0) && exists s :: s in scores && s.1 == p.1
  {
    if |scores| == 1 then
      assert scores[0] in scores;
      scores[0]
    else
      var last := scores[|scores| - 1];
      var rest := Peak(scores[..|scores| - 1]);
      assert scores == scores[..|scores| - 1] + [last];
      (MaxOf(rest.0, last.0), MaxOf(rest.1, last.1))
  }

  lemma MessagesMerge(defaults: Defaults, b: Builder, gt: real, p: (int, int), q: (int, int))
    ensures
      var once := Message(defaults, b, gt, p.0, p.1);
      && once.half == b.half
      && Message(defaults, once, gt, q.0, q.1) == Message(defaults, b, gt, MaxOf(p.0, q.0), MaxOf(p.1, q.1))
  {
    hide NonDefaultHeld, LONG_AGO;
  }

  lemma TwoMessages(defaults: Defaults, b: Builder, half: int, gt: real, p: (int, int), q: (int, int))
    ensures Take(defaults, Take(defaults, b, TeamScore(half, Some(gt), Some(p))), TeamScore(half, Some(gt), Some(q)))
         == Take(defaults, b, TeamScore(half, Some(gt), Some((MaxOf(p.0, q.0), MaxOf(p.1, q.1)))))
  {
    hide Message;
    MessagesMerge(defaults, Enter(b, half), gt, p, q);
  }

  /** Any run of messages of one frame is the single message of its peaks. */
  lemma {:induction false} FrameIsItsPeak(defaults: Defaults, b: Builder, half: int, gt: real, scores: seq<(int, int)>)
    requires scores != []
    ensures TakeAll(defaults, b, ScoresOf(half, gt, scores))
         == Take(defaults, b, TeamScore(half, Some(gt), Some(Peak(scores))))
  {
    hide Take;
    var events := ScoresOf(half, gt, scores);
    if |scores| == 1 {
      assert events[..0] == [];
    } else {
      var front := scores[..|scores| - 1];
      FrameIsItsPeak(defaults, b, half, gt, front);
      assert events[..|events| - 1] == ScoresOf(half, gt, front);
      TwoMessages(defaults, b, half, gt, Peak(front), scores[|scores| - 1]);
    }
  }

  lemma {:induction false} TakeInParts(defaults: Defaults, b: Builder, u: seq<StreamEvent>, v: seq<StreamEvent>)
    ensures TakeAll(defaults, b, u + v) == TakeAll(defaults, TakeAll(defaults, b, u), v)
  {
    if v == [] {
      assert u + v == u;
    } else {
      TakeInParts(defaults, b, u, v[..|v| - 1]);
      assert (u + v)[..|u + v| - 1] == u + v[..|v| - 1];
    }
  }

  /** Recording order inside a frame is invisible: two streams that differ only in the messages of one frame,
      in their order or in how often they repeat, are analysed alike as long as the peaks agree. */
  lemma RecordingOrderIsInvisible(defaults: Defaults, u: seq<StreamEvent>, v: seq<StreamEvent>,
                                  half: int, gt: real, one: seq<(int, int)>, other: seq<(int, int)>)
    requires one != [] && other != [] && Peak(one) == Peak(other)
    ensures Timeline(defaults, u + ScoresOf(half, gt, one) + v) == Timeline(defaults, u + ScoresOf(half, gt, other) + v)
    ensures Analyze(defaults.Some?, Timeline(defaults, u + ScoresOf(half, gt, one) + v))
         == Analyze(defaults.Some?, Timeline(defaults, u + ScoresOf(half, gt, other) + v))
  {
    hide Take;
    var b := TakeAll(defaults, START, u);
    TakeInParts(defaults, START, u, ScoresOf(half, gt, one));
    TakeInParts(defaults, START, u, ScoresOf(half, gt, other));
    TakeInParts(defaults, START, u + ScoresOf(half, gt, one), v);
    TakeInParts(defaults, START, u + ScoresOf(half, gt, other), v);
    FrameIsItsPeak(defaults, b, half, gt, one);
    FrameIsItsPeak(defaults, b, half, gt, other);
  }

  /** In particular a stale score recorded late inside its own frame cannot make a score appear to fall. */
  lemma StaleMessageIsAbsorbed(defaults: Defaults, u: seq<StreamEvent>, v: seq<StreamEvent>,
                               half: int, gt: real, scores: seq<(int, int)>, stale: (int, int))
    requires scores != [] && stale.0 <= Peak(scores).0 && stale.1 <= Peak(scores).1
    ensures Timeline(defaults, u + ScoresOf(half, gt, scores + [stale]) + v)
         == Timeline(defaults, u + ScoresOf(half, gt, scores) + v)
  {
    assert (scores + [stale])[..|scores|] == scores;
    RecordingOrderIsInvisible(defaults, u, v, half, gt, scores + [stale], scores);
  }
}
