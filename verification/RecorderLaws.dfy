/** What every run of the recorder keeps: memory is a cache of the files, logs only grow and stay with
    one server, and a crash between any two writes is repaired by the restart. */
module RecorderLaws {
  import opened Wrappers
  import opened MatchRecorder

  /** All the recorder holds about one match. */
  datatype Cell = Cell(active: bool, meta: Option<MatchMetadata>, last: Option<int>, dir: MatchDir)

  function CellOf(s: Recorder, id: string): Cell {
    Cell(id in s.mem.active, Get(s.mem.metadata, id), Get(s.mem.lastEventAt, id), DirOf(s.disk, id))
  }

  /** A stored log has metadata beside it, and every line came from the match's own server. */
  ghost predicate DirOk(dir: MatchDir) {
    dir.log.Some? ==> dir.meta.Some? && forall row <- dir.log.value :: row.postedBy == dir.meta.value.sourceServer
  }

  /** Memory says about a match what its files imply. */
  ghost predicate CellOk(c: Cell) {
    && DirOk(c.dir)
    && c.active == IsOpen(c.dir)
    && (c.active ==> c.meta == Some(Recount(c.dir)))
    && c.last.Some? == c.active
    && (c.active && c.dir.log.Some? ==> c.last == Some(c.dir.mtime))
    && (!c.active && c.meta.Some? ==>
          c.dir.meta == c.meta && c.meta.value.endedAt.Some? && c.meta.value.eventCount == |c.dir.Rows()|)
  }

  ghost predicate Inv(s: Recorder) { forall id :: CellOk(CellOf(s, id)) }

  /** The stored count is the one there was, or no more than the log holds. */
  predicate CountFollows(a: MatchDir, b: MatchDir) {
    b.meta.Some? ==>
      || (a.meta.Some? && b.meta.value.eventCount == a.meta.value.eventCount)
      || 0 <= b.meta.value.eventCount <= |b.Rows()|
  }

  /** How a match's files may change: the log grows at its end, the owner stays, no count runs ahead of the log, and a
      completed match keeps its end and gains only final rows inside the settlement window. */
  ghost predicate Extends(a: MatchDir, b: MatchDir) {
    && a.Rows() <= b.Rows() && CountFollows(a, b)
    && (a.meta.Some? ==> b.meta.Some? && b.meta.value.sourceServer == a.meta.value.sourceServer)
    && (a.meta.Some? && a.meta.value.endedAt.Some? ==>
          && b.meta.value.endedAt == a.meta.value.endedAt
          && forall row <- b.Rows()[|a.Rows()|..] :: AdmissibleLate(a.meta.value.endedAt.value, row.event, row.at))
  }

  lemma ExtendsTransitive(a: MatchDir, b: MatchDir, c: MatchDir)
    requires Extends(a, b) && Extends(b, c)
    ensures Extends(a, c)
  {
    var n, m := |a.Rows()|, |b.Rows()|;
    assert c.Rows()[n..] == c.Rows()[n..m] + c.Rows()[m..];
    assert c.Rows()[n..m] == b.Rows()[n..];
  }

  /** Whether a write respects the match it is made to. */
  ghost predicate WriteOk(dir: MatchDir, w: Write) {
    match w
    case MkDir(_) => true
    case WriteMeta(_, meta) =>
      0 <= meta.eventCount <= |dir.Rows()| &&
      if dir.meta.None? then dir.log.None?
      else
        meta.sourceServer == dir.meta.value.sourceServer
        && (dir.meta.value.endedAt.Some? ==> meta.endedAt == dir.meta.value.endedAt)
    case CreateLog(_, _) => dir.log.None? && dir.meta.Some?
    case AppendRow(_, row) =>
      dir.meta.Some? && row.postedBy == dir.meta.value.sourceServer
      && (dir.meta.value.endedAt.Some? ==> AdmissibleLate(dir.meta.value.endedAt.value, row.event, row.at))
  }

  lemma WriteKeepsDir(dir: MatchDir, w: Write)
    requires DirOk(dir) && WriteOk(dir, w)
    ensures DirOk(Written(dir, w)) && Extends(dir, Written(dir, w))
  {
    var n := |dir.Rows()|;
    var after := Written(dir, w);
    if w.AppendRow? {
      assert after.Rows()[n..] == [w.row];
    } else {
      assert after.Rows() == dir.Rows();
      assert after.Rows()[n..] == [];
    }
  }

  /** Every write of a plan is made to `id`, in a directory that is there, and respects it, wherever a crash cuts the
      plan off. */
  ghost predicate AllOk(id: string, d: Disk, ws: seq<Write>) {
    forall k :: 0 <= k < |ws| ==> ws[k].id == id && Fitting(ApplyAll(d, ws[..k]), ws[k])
  }

  ghost predicate Fitting(d: Disk, w: Write) { (w.MkDir? || w.id in d) && WriteOk(DirOf(d, w.id), w) }

  lemma {:induction false} WritesKeepDir(id: string, d: Disk, ws: seq<Write>)
    requires AllOk(id, d, ws) && DirOk(DirOf(d, id))
    ensures DirOk(DirOf(ApplyAll(d, ws), id)) && Extends(DirOf(d, id), DirOf(ApplyAll(d, ws), id))
    ensures forall other :: other != id ==> DirOf(ApplyAll(d, ws), other) == DirOf(d, other)
  {
    if ws == [] {
      assert DirOf(d, id).Rows()[|DirOf(d, id).Rows()|..] == [];
    } else {
      var n := |ws| - 1;
      assert forall k :: 0 <= k < n ==> ws[..n][..k] == ws[..k];
      WritesKeepDir(id, d, ws[..n]);
      WriteKeepsDir(DirOf(ApplyAll(d, ws[..n]), id), ws[n]);
      ExtendsTransitive(DirOf(d, id), DirOf(ApplyAll(d, ws[..n]), id), DirOf(ApplyAll(d, ws), id));
    }
  }

  lemma AllOkInParts(id: string, d: Disk, a: seq<Write>, b: seq<Write>)
    requires AllOk(id, d, a) && AllOk(id, ApplyAll(d, a), b)
    ensures AllOk(id, d, a + b)
  {
    hide Fitting, ApplyAll, DirOf;
    forall k | 0 <= k < |a + b|
      ensures (a + b)[k].id == id && Fitting(ApplyAll(d, (a + b)[..k]), (a + b)[k])
    {
      if k < |a| {
        assert (a + b)[..k] == a[..k];
      } else {
        assert (a + b)[..k] == a + b[..k - |a|];
        ApplyInParts(d, a, b[..k - |a|]);
      }
    }
  }

  lemma AllOkPrefix(id: string, d: Disk, ws: seq<Write>, k: nat)
    requires AllOk(id, d, ws) && k <= |ws|
    ensures AllOk(id, d, ws[..k])
  {
    assert forall j :: 0 <= j < k ==> ws[..k][..j] == ws[..j];
  }

  lemma NoWrites(id: string, d: Disk)
    ensures AllOk(id, d, []) && ApplyAll(d, []) == d
  {
  }

  lemma OneWrite(id: string, d: Disk, w: Write)
    requires w.id == id && Fitting(d, w)
    ensures AllOk(id, d, [w]) && ApplyAll(d, [w]) == Apply(d, w)
  {
    assert [w][..0] == [];
  }

  /** Only a crash between a match's metadata and its log leaves an active match without a log. */
  predicate Logged(c: Cell) { c.active ==> c.dir.log.Some? }

  /** A plan about `id` that keeps the recorder in order and says nothing about other matches. */
  ghost predicate Sound(s: Recorder, id: string, p: Plan) {
    && AllOk(id, s.disk, p.writes)
    && CellOk(CellOf(After(s, p), id))
    && (Logged(CellOf(s, id)) ==> Logged(CellOf(After(s, p), id)))
    && (forall other :: other != id ==>
          && (other in p.mem.active <==> other in s.mem.active)
          && Get(p.mem.metadata, other) == Get(s.mem.metadata, other)
          && Get(p.mem.lastEventAt, other) == Get(s.mem.lastEventAt, other))
  }

  lemma SoundKeepsInv(s: Recorder, id: string, p: Plan)
    requires Inv(s) && Sound(s, id, p)
    ensures Inv(After(s, p))
    ensures forall other :: other != id ==> CellOf(After(s, p), other) == CellOf(s, other)
  {
    assert CellOk(CellOf(s, id));
    WritesKeepDir(id, s.disk, p.writes);
    forall other | other != id ensures CellOf(After(s, p), other) == CellOf(s, other) {}
    forall other ensures CellOk(CellOf(After(s, p), other)) {
      assert CellOk(CellOf(s, other));
    }
  }

  lemma SoundInTurn(s: Recorder, id: string, p: Plan, q: Plan)
    requires Sound(s, id, p) && Sound(After(s, p), id, q)
    ensures Sound(s, id, Then(p, q)) && After(s, Then(p, q)) == After(After(s, p), q)
  {
    AllOkInParts(id, s.disk, p.writes, q.writes);
    ApplyInParts(s.disk, p.writes, q.writes);
  }

  lemma LookUpIsSound(s: Recorder, id: string)
    requires CellOk(CellOf(s, id))
    ensures Sound(s, id, LookUp(s, id))
    ensures LookUp(s, id).ok == (DirOf(s.disk, id).meta.Some? && DirOf(s.disk, id).meta.value.endedAt.Some?)
    ensures LookUp(s, id).mem.active == s.mem.active
    ensures LookUp(s, id).ok ==> id in LookUp(s, id).mem.metadata
  {
    NoWrites(id, s.disk);
    var p := LookUp(s, id);
    if p.writes != [] {
      OneWrite(id, s.disk, p.writes[0]);
      assert p.writes == [p.writes[0]];
    }
  }

  lemma OpenIsSound(s: Recorder, id: string, meta: MatchMetadata, now: int)
    requires CellOk(CellOf(s, id)) && DirOf(s.disk, id).meta.None?
    requires meta.endedAt.None? && meta.eventCount == 0
    ensures id in Open(s, id, meta, now).mem.active
    ensures Sound(s, id, Open(s, id, meta, now))
    ensures DirOf(After(s, Open(s, id, meta, now)).disk, id) == MatchDir(Some(meta), Some([]), now)
  {
    var w0, w1, w2 := MkDir(id), WriteMeta(id, meta), CreateLog(id, now);
    var d1 := Apply(s.disk, w0);
    var d2 := Apply(d1, w1);
    OneWrite(id, s.disk, w0);
    OneWrite(id, d1, w1);
    OneWrite(id, d2, w2);
    AllOkInParts(id, s.disk, [w0], [w1]);
    ApplyInParts(s.disk, [w0], [w1]);
    AllOkInParts(id, s.disk, [w0] + [w1], [w2]);
    ApplyInParts(s.disk, [w0] + [w1], [w2]);
    assert Open(s, id, meta, now).writes == [w0] + [w1] + [w2];
  }

  lemma StartAgainIsSound(s: Recorder, id: string, mapName: string, matchType: int, half: int, server: string)
    requires CellOk(CellOf(s, id)) && id in s.mem.active
    ensures StartAgain(s, id, mapName, matchType, half, server).mem.active == s.mem.active
    ensures Sound(s, id, StartAgain(s, id, mapName, matchType, half, server))
    ensures DirOf(After(s, StartAgain(s, id, mapName, matchType, half, server)).disk, id).log == DirOf(s.disk, id).log
  {
    NoWrites(id, s.disk);
    var p := StartAgain(s, id, mapName, matchType, half, server);
    if p.writes != [] {
      OneWrite(id, s.disk, p.writes[0]);
      assert p.writes == [p.writes[0]];
    }
  }

  lemma StartIsSound(s: Recorder, id: string, mapName: string, matchType: int, half: int, server: string, now: int)
    requires CellOk(CellOf(s, id))
    ensures Sound(s, id, StartMatch(s, id, mapName, matchType, half, server, now))
    ensures DirOf(After(s, StartMatch(s, id, mapName, matchType, half, server, now)).disk, id).Rows()
         == DirOf(s.disk, id).Rows()
    ensures StartMatch(s, id, mapName, matchType, half, server, now).ok ==>
              id in StartMatch(s, id, mapName, matchType, half, server, now).mem.active
  {
    hide StartAgain, Open, LookUp, AllOk, ApplyAll;
    if id in s.mem.active {
      StartAgainIsSound(s, id, mapName, matchType, half, server);
    } else {
      LookUpIsSound(s, id);
      LookUpKeepsLogs(s, id);
      var found := LookUp(s, id);
      if !found.ok {
        var t, meta := After(s, found), MatchMetadata(mapName, matchType, half, now, None, 0, server);
        OpenIsSound(t, id, meta, now);
        SoundInTurn(s, id, found, Open(t, id, meta, now));
      }
    }
  }

  lemma LookUpKeepsLogs(s: Recorder, id: string)
    ensures DirOf(After(s, LookUp(s, id)).disk, id).log == DirOf(s.disk, id).log
    ensures DirOf(s.disk, id).meta.None? ==> DirOf(After(s, LookUp(s, id)).disk, id).meta.None?
    ensures LookUp(s, id).mem.active == s.mem.active
  {
    var p := LookUp(s, id);
    if p.writes == [] {
      assert ApplyAll(s.disk, []) == s.disk;
    } else {
      var w := p.writes[0];
      assert p.writes == [w] && p.writes[..0] == [];
      assert ApplyAll(s.disk, p.writes) == Apply(s.disk, w);
    }
  }

  lemma AppendIsSound(s: Recorder, id: string, e: Event, server: string, now: int)
    requires CellOk(CellOf(s, id)) && id in s.mem.metadata && s.mem.metadata[id].sourceServer == server
    requires id !in s.mem.active ==> AdmissibleLate(s.mem.metadata[id].endedAt.value, e, now)
    ensures Sound(s, id, Append(s, id, e, server, now))
    ensures DirOf(After(s, Append(s, id, e, server, now)).disk, id).Rows()
         == DirOf(s.disk, id).Rows() + [Row(e, server, now)]
  {
    var p := Append(s, id, e, server, now);
    var w := AppendRow(id, Row(e, server, now));
    OneWrite(id, s.disk, w);
    if |p.writes| == 1 {
      assert p.writes == [w];
    } else {
      var d := Apply(s.disk, w);
      OneWrite(id, d, p.writes[1]);
      AllOkInParts(id, s.disk, [w], [p.writes[1]]);
      ApplyInParts(s.disk, [w], [p.writes[1]]);
      assert p.writes == [w] + [p.writes[1]];
    }
  }

  lemma RecordIsSound(s: Recorder, id: string, e: Event, server: string, now: int)
    requires CellOk(CellOf(s, id))
    ensures Sound(s, id, RecordEvent(s, id, e, server, now))
    ensures DirOf(After(s, RecordEvent(s, id, e, server, now)).disk, id).Rows()
         == DirOf(s.disk, id).Rows() + if RecordEvent(s, id, e, server, now).ok then [Row(e, server, now)] else []
  {
    hide StartMatch, LookUp, AllOk, ApplyAll, Apply, DirOk;
    var active := id in s.mem.active;
    var found := if active then Plan(s.mem, [], false) else LookUp(s, id);
    NoWrites(id, s.disk);
    LookUpIsSound(s, id);
    LookUpKeepsLogs(s, id);
    assert Sound(s, id, found);
    var t := After(s, found);
    var start := StartMatch(t, id, e.mapName.GetOr("unknown"), 0, 0, server, now);
    var begun := if active || found.ok then found else Then(found, start);
    StartIsSound(t, id, e.mapName.GetOr("unknown"), 0, 0, server, now);
    SoundInTurn(s, id, found, start);
    var u := After(s, begun);
    assert u == if active || found.ok then t else After(t, start);
    assert DirOf(u.disk, id).Rows() == DirOf(s.disk, id).Rows();
    if RecordEvent(s, id, e, server, now).ok {
      AppendIsSound(u, id, e, server, now);
      SoundInTurn(s, id, begun, Append(u, id, e, server, now));
    }
  }

  lemma EndIsSound(s: Recorder, id: string, now: int)
    requires CellOk(CellOf(s, id)) && id in s.mem.active
    ensures Sound(s, id, EndMatch(s, id, now)) && EndMatch(s, id, now).ok
    ensures DirOf(After(s, EndMatch(s, id, now)).disk, id).log == DirOf(s.disk, id).log
  {
    var p := EndMatch(s, id, now);
    OneWrite(id, s.disk, p.writes[0]);
    assert p.writes == [p.writes[0]];
  }

  /** A POST keeps the recorder in order, leaves every other match alone, and appends exactly the event
      it accepted, as the last line. */
  lemma IngestIsSound(s: Recorder, id: string, e: Event, server: string, now: int)
    requires CellOk(CellOf(s, id))
    ensures Sound(s, id, Ingest(s, id, e, server, now))
    ensures DirOf(After(s, Ingest(s, id, e, server, now)).disk, id).Rows()
         == DirOf(s.disk, id).Rows()
            + if Ingest(s, id, e, server, now).ok && !IsSocketOnly(e.name) then [Row(e, server, now)] else []
  {
    hide StartMatch, RecordEvent, LookUp, EndMatch, AllOk, ApplyAll, Apply, DirOk;
    NoWrites(id, s.disk);
    var begun := if e.name == "ktp_match_start"
                 then StartMatch(s, id, e.mapName.GetOr("unknown"), e.matchType.GetOr(0), e.half.GetOr(0), server, now)
                 else Plan(s.mem, [], true);
    StartIsSound(s, id, e.mapName.GetOr("unknown"), e.matchType.GetOr(0), e.half.GetOr(0), server, now);
    var t := After(s, begun);
    assert Sound(s, id, begun) && DirOf(t.disk, id).Rows() == DirOf(s.disk, id).Rows();
    if begun.ok {
      if IsSocketOnly(e.name) {
        LookUpIsSound(t, id);
        LookUpKeepsLogs(t, id);
        SoundInTurn(s, id, begun, LookUp(t, id));
      } else {
        var recorded := RecordEvent(t, id, e, server, now);
        RecordIsSound(t, id, e, server, now);
        SoundInTurn(s, id, begun, recorded);
        if recorded.ok && e.name == "ktp_match_end" {
          RecordEndsActive(t, id, e, server, now);
          var u := After(t, recorded);
          EndIsSound(u, id, now);
          SoundInTurn(t, id, recorded, EndMatch(u, id, now));
          SoundInTurn(s, id, begun, Then(recorded, EndMatch(u, id, now)));
        }
      }
    }
  }

  /** Only final rows are taken for a completed match, so a recorded match end found its match active. */
  lemma RecordEndsActive(s: Recorder, id: string, e: Event, server: string, now: int)
    requires CellOk(CellOf(s, id)) && RecordEvent(s, id, e, server, now).ok && !IsFinalRow(e)
    ensures id in RecordEvent(s, id, e, server, now).mem.active
  {
    hide StartMatch, AllOk, ApplyAll, Apply, DirOk;
    LookUpIsSound(s, id);
    var active := id in s.mem.active;
    var found := if active then Plan(s.mem, [], false) else LookUp(s, id);
    var t := After(s, found);
    StartIsSound(t, id, e.mapName.GetOr("unknown"), 0, 0, server, now);
  }

  datatype Action =
    | Post(id: string, event: Event, server: string, now: int)
    | Reap(id: string, staleMs: int, now: int)
    | Restart(now: int)
    | CrashInPost(post: Action, writesDone: nat, restartAt: int)
    | Idle

  function Restarted(d: Disk, now: int): Recorder { Recorder(Rehydrate(d, now), d) }

  function Done(s: Recorder, a: Action): Plan
    requires a.Post?
  {
    Ingest(s, a.id, a.event, a.server, a.now)
  }

  /** The files when the process dies after `k` of the plan's writes. */
  function Torn(s: Recorder, p: Plan, k: nat): Disk {
    ApplyAll(s.disk, if k <= |p.writes| then p.writes[..k] else p.writes)
  }

  /** One step of a deployment: a POST, one match of a reaper sweep, a restart, or a crash inside a POST. */
  function Next(s: Recorder, a: Action): Recorder {
    match a
    case Post(_, _, _, _) => After(s, Done(s, a))
    case Reap(id, staleMs, now) => if IsStale(s.mem, id, staleMs, now) then After(s, EndMatch(s, id, now)) else s
    case Restart(now) => Restarted(s.disk, now)
    case CrashInPost(post, k, now) => if post.Post? then Restarted(Torn(s, Done(s, post), k), now) else s
    case Idle => s
  }

  ghost predicate Runs(states: seq<Recorder>, acts: seq<Action>) {
    |states| == |acts| + 1
    && forall i {:trigger acts[i]} :: 0 <= i < |acts| ==> states[i + 1] == Next(states[i], acts[i])
  }

  /** A deployment begins with a start-up scan of files in good order, such as none at all. */
  ghost predicate Starts(s: Recorder) {
    exists d, now :: s == Restarted(d, now) && forall id :: DirOk(DirOf(d, id))
  }

  /** Any files in good order are taken back in full: the scan rebuilds what the files imply. */
  lemma RestartRebuilds(d: Disk, now: int)
    requires forall id :: DirOk(DirOf(d, id))
    ensures Inv(Restarted(d, now))
  {
    var s := Restarted(d, now);
    forall id ensures CellOk(CellOf(s, id)) {
      assert DirOk(DirOf(d, id));
    }
  }

  lemma InvDirs(s: Recorder)
    requires Inv(s)
    ensures forall id :: DirOk(DirOf(s.disk, id))
  {
    forall id ensures DirOk(DirOf(s.disk, id)) {
      assert CellOk(CellOf(s, id));
    }
  }

  /** A crash between any two writes of a POST leaves files in good order, other matches untouched, and
      the match's log either as it was or longer by just that event. */
  lemma CrashTearsNothing(s: Recorder, post: Action, k: nat)
    requires Inv(s) && post.Post?
    ensures forall id :: DirOk(DirOf(Torn(s, Done(s, post), k), id))
    ensures forall id :: Extends(DirOf(s.disk, id), DirOf(Torn(s, Done(s, post), k), id))
    ensures forall id :: id != post.id ==> DirOf(Torn(s, Done(s, post), k), id) == DirOf(s.disk, id)
    ensures DirOf(s.disk, post.id).Rows() <= DirOf(Torn(s, Done(s, post), k), post.id).Rows()
         <= DirOf(After(s, Done(s, post)).disk, post.id).Rows()
  {
    hide Ingest, Apply;
    var p, id := Done(s, post), post.id;
    var n := if k <= |p.writes| then k else |p.writes|;
    assert CellOk(CellOf(s, id));
    IngestIsSound(s, id, post.event, post.server, post.now);
    assert p.writes[..|p.writes|] == p.writes;
    AllOkPrefix(id, s.disk, p.writes, n);
    WritesKeepDir(id, s.disk, p.writes[..n]);
    var d := Torn(s, p, k);
    assert d == ApplyAll(s.disk, p.writes[..n]);
    TailOk(id, s.disk, p.writes, n);
    WritesKeepDir(id, d, p.writes[n..]);
    assert p.writes == p.writes[..n] + p.writes[n..];
    ApplyInParts(s.disk, p.writes[..n], p.writes[n..]);
    InvDirs(s);
    forall other ensures DirOk(DirOf(d, other)) && Extends(DirOf(s.disk, other), DirOf(d, other)) {
      if other != id { ExtendsSelf(DirOf(s.disk, other)); }
    }
  }

  lemma ExtendsSelf(dir: MatchDir)
    ensures Extends(dir, dir)
  {
    assert dir.Rows()[|dir.Rows()|..] == [];
  }

  lemma TailOk(id: string, d: Disk, ws: seq<Write>, n: nat)
    requires AllOk(id, d, ws) && n <= |ws|
    ensures AllOk(id, ApplyAll(d, ws[..n]), ws[n..])
  {
    hide Fitting, ApplyAll, DirOf;
    forall k | 0 <= k < |ws| - n
      ensures ws[n..][k].id == id && Fitting(ApplyAll(ApplyAll(d, ws[..n]), ws[n..][..k]), ws[n..][k])
    {
      ApplyInParts(d, ws[..n], ws[n..][..k]);
      assert ws[..n] + ws[n..][..k] == ws[..n + k];
      assert ws[n..][k] == ws[n + k];
    }
  }

  lemma StepKeeps(s: Recorder, a: Action)
    requires Inv(s)
    ensures Inv(Next(s, a))
    ensures forall id :: Extends(DirOf(s.disk, id), DirOf(Next(s, a).disk, id))
  {
    hide Ingest, EndMatch, Rehydrate, ApplyAll, DirOk, Extends, CellOk;
    forall id ensures CellOk(CellOf(s, id)) {}
    InvDirs(s);
    forall id ensures Extends(DirOf(s.disk, id), DirOf(s.disk, id)) { ExtendsSelf(DirOf(s.disk, id)); }
    match a
    case Post(id, e, server, now) =>
      IngestIsSound(s, id, e, server, now);
      SoundKeepsInv(s, id, Done(s, a));
      WritesKeepDir(id, s.disk, Done(s, a).writes);
    case Reap(id, staleMs, now) =>
      if IsStale(s.mem, id, staleMs, now) {
        EndIsSound(s, id, now);
        SoundKeepsInv(s, id, EndMatch(s, id, now));
        WritesKeepDir(id, s.disk, EndMatch(s, id, now).writes);
      }
    case Restart(now) => RestartRebuilds(s.disk, now);
    case CrashInPost(post, k, now) =>
      if post.Post? {
        CrashTearsNothing(s, post, k);
        RestartRebuilds(Torn(s, Done(s, post), k), now);
      }
    case Idle =>
  }

  /** After every step of every run, crashes and restarts included, memory says what the files imply: the
      active matches are those stored without an end, and every count in memory is its log's length. */
  lemma {:induction false} MemoryMirrorsDisk(states: seq<Recorder>, acts: seq<Action>, k: nat)
    requires Runs(states, acts) && Starts(states[0]) && k < |states|
    ensures Inv(states[k])
  {
    hide CellOk, Next, DirOk;
    if k == 0 {
      var d, now :| states[0] == Restarted(d, now) && forall id :: DirOk(DirOf(d, id));
      RestartRebuilds(d, now);
    } else {
      MemoryMirrorsDisk(states, acts, k - 1);
      assert states[k] == Next(states[k - 1], acts[k - 1]);
      StepKeeps(states[k - 1], acts[k - 1]);
    }
  }

  /** Sealed, owned, append-only: between any two moments of a run a log only grows at its end, its match
      never changes server, and a completed match stays completed, keeps its end and takes only final
      rows inside the settlement window. */
  lemma {:induction false} LogsAreSealed(states: seq<Recorder>, acts: seq<Action>, i: nat, j: nat, id: string)
    requires Runs(states, acts) && Starts(states[0]) && i <= j < |states|
    ensures Extends(DirOf(states[i].disk, id), DirOf(states[j].disk, id))
    ensures DirOk(DirOf(states[j].disk, id))
    ensures DirOf(states[i].disk, id).meta.Some? && DirOf(states[i].disk, id).meta.value.endedAt.Some? ==>
              id !in states[j].mem.active
    decreases j
  {
    hide Next;
    MemoryMirrorsDisk(states, acts, j);
    assert CellOk(CellOf(states[j], id));
    if i == j {
      ExtendsSelf(DirOf(states[i].disk, id));
    } else {
      LogsAreSealed(states, acts, i, j - 1, id);
      MemoryMirrorsDisk(states, acts, j - 1);
      assert states[j] == Next(states[j - 1], acts[j - 1]);
      StepKeeps(states[j - 1], acts[j - 1]);
      ExtendsTransitive(DirOf(states[i].disk, id), DirOf(states[j - 1].disk, id), DirOf(states[j].disk, id));
    }
  }

  /** Two recorders over the same files, each mirroring them, perhaps with different memories. */
  ghost predicate Twins(s: Recorder, t: Recorder, id: string) {
    s.disk == t.disk && CellOk(CellOf(s, id)) && CellOk(CellOf(t, id))
  }

  lemma TwinsLookUp(s: Recorder, t: Recorder, id: string)
    requires Twins(s, t, id)
    ensures LookUp(s, id).writes == LookUp(t, id).writes && LookUp(s, id).ok == LookUp(t, id).ok
    ensures Twins(After(s, LookUp(s, id)), After(t, LookUp(t, id)), id)
  {
    LookUpIsSound(s, id);
    LookUpIsSound(t, id);
  }

  lemma TwinsStart(s: Recorder, t: Recorder, id: string, mapName: string, matchType: int, half: int,
                   server: string, now: int)
    requires Twins(s, t, id)
    ensures StartMatch(s, id, mapName, matchType, half, server, now).writes
         == StartMatch(t, id, mapName, matchType, half, server, now).writes
    ensures StartMatch(s, id, mapName, matchType, half, server, now).ok
         == StartMatch(t, id, mapName, matchType, half, server, now).ok
    ensures Twins(After(s, StartMatch(s, id, mapName, matchType, half, server, now)),
                  After(t, StartMatch(t, id, mapName, matchType, half, server, now)), id)
  {
    hide LookUp, ApplyAll, Apply, DirOk, AllOk;
    TwinsLookUp(s, t, id);
    StartIsSound(s, id, mapName, matchType, half, server, now);
    StartIsSound(t, id, mapName, matchType, half, server, now);
  }

  lemma TwinsRecord(s: Recorder, t: Recorder, id: string, e: Event, server: string, now: int)
    requires Twins(s, t, id)
    ensures RecordEvent(s, id, e, server, now).writes == RecordEvent(t, id, e, server, now).writes
    ensures RecordEvent(s, id, e, server, now).ok == RecordEvent(t, id, e, server, now).ok
    ensures Twins(After(s, RecordEvent(s, id, e, server, now)), After(t, RecordEvent(t, id, e, server, now)), id)
  {
    hide LookUp, StartMatch, ApplyAll, Apply, DirOk, AllOk, AdmissibleLate;
    NoWrites(id, s.disk);
    RecordIsSound(s, id, e, server, now);
    RecordIsSound(t, id, e, server, now);
    TwinsLookUp(s, t, id);
    LookUpIsSound(s, id);
    LookUpIsSound(t, id);
    var active := id in s.mem.active;
    var a := if active then Plan(s.mem, [], false) else LookUp(s, id);
    var b := if active then Plan(t.mem, [], false) else LookUp(t, id);
    var s1, t1 := After(s, a), After(t, b);
    TwinsStart(s1, t1, id, e.mapName.GetOr("unknown"), 0, 0, server, now);
    var c := StartMatch(s1, id, e.mapName.GetOr("unknown"), 0, 0, server, now);
    var d := StartMatch(t1, id, e.mapName.GetOr("unknown"), 0, 0, server, now);
    StartIsSound(s1, id, e.mapName.GetOr("unknown"), 0, 0, server, now);
    StartIsSound(t1, id, e.mapName.GetOr("unknown"), 0, 0, server, now);
    if active || a.ok {
      assert Get(s1.mem.metadata, id) == Get(t1.mem.metadata, id);
    } else if c.ok {
      SoundInTurn(s, id, a, c);
      SoundInTurn(t, id, b, d);
      assert Get(c.mem.metadata, id) == Get(d.mem.metadata, id);
    }
  }

  /** A POST's answer and its file writes are decided by the files alone: memory is only a cache. */
  lemma DiskDecides(s: Recorder, t: Recorder, id: string, e: Event, server: string, now: int)
    requires Twins(s, t, id)
    ensures Ingest(s, id, e, server, now).writes == Ingest(t, id, e, server, now).writes
    ensures Ingest(s, id, e, server, now).ok == Ingest(t, id, e, server, now).ok
  {
    hide LookUp, StartMatch, RecordEvent, ApplyAll, Apply, DirOk, AllOk;
    NoWrites(id, s.disk);
    TwinsStart(s, t, id, e.mapName.GetOr("unknown"), e.matchType.GetOr(0), e.half.GetOr(0), server, now);
    var a := if e.name == "ktp_match_start"
             then StartMatch(s, id, e.mapName.GetOr("unknown"), e.matchType.GetOr(0), e.half.GetOr(0), server, now)
             else Plan(s.mem, [], true);
    var b := if e.name == "ktp_match_start"
             then StartMatch(t, id, e.mapName.GetOr("unknown"), e.matchType.GetOr(0), e.half.GetOr(0), server, now)
             else Plan(t.mem, [], true);
    var s1, t1 := After(s, a), After(t, b);
    assert Twins(s1, t1, id);
    TwinsLookUp(s1, t1, id);
    TwinsRecord(s1, t1, id, e, server, now);
    if !IsSocketOnly(e.name) && a.ok && RecordEvent(s1, id, e, server, now).ok && e.name == "ktp_match_end" {
      RecordEndsActive(s1, id, e, server, now);
      RecordEndsActive(t1, id, e, server, now);
    }
  }

  /** A completed match first asked for after a restart has its stored count repaired to its log's length. */
  lemma FirstLookUpRepairsCount(s: Recorder, id: string)
    requires Inv(s) && DirOf(s.disk, id).meta.Some? && DirOf(s.disk, id).meta.value.endedAt.Some?
    ensures
      var t := After(s, LookUp(s, id));
      && LookUp(s, id).ok && id !in t.mem.active && id in t.mem.metadata
      && DirOf(t.disk, id) == DirOf(s.disk, id).(meta := Some(Recount(DirOf(s.disk, id))))
      && t.mem.metadata[id] == Recount(DirOf(s.disk, id))
  {
    assert CellOk(CellOf(s, id));
    LookUpIsSound(s, id);
    var p := LookUp(s, id);
    if p.writes != [] {
      OneWrite(id, s.disk, p.writes[0]);
      assert p.writes == [p.writes[0]];
    }
  }

  ghost predicate NoCrash(acts: seq<Action>) {
    forall i {:trigger acts[i]} :: 0 <= i < |acts| ==> !acts[i].CrashInPost?
  }

  ghost predicate AllLogged(s: Recorder) { forall id :: Logged(CellOf(s, id)) }

  lemma StepKeepsLogged(s: Recorder, a: Action)
    requires Inv(s) && AllLogged(s) && !a.CrashInPost?
    ensures AllLogged(Next(s, a))
  {
    hide Ingest, EndMatch, ApplyAll, Apply, CellOk;
    forall id ensures CellOk(CellOf(s, id)) {}
    match a
    case Post(id, e, server, now) =>
      IngestIsSound(s, id, e, server, now);
      SoundKeepsInv(s, id, Done(s, a));
      forall other ensures Logged(CellOf(Next(s, a), other)) {
        assert Logged(CellOf(s, other));
      }
    case Reap(id, staleMs, now) =>
      if IsStale(s.mem, id, staleMs, now) {
        EndIsSound(s, id, now);
        SoundKeepsInv(s, id, EndMatch(s, id, now));
        forall other ensures Logged(CellOf(Next(s, a), other)) {
          assert Logged(CellOf(s, other));
        }
      }
    case Restart(now) =>
      forall id ensures Logged(CellOf(Next(s, a), id)) {
        assert Logged(CellOf(s, id));
        assert CellOk(CellOf(s, id));
        RestartKeepsActive(s, id, now);
      }
    case Idle =>
  }

  lemma RestartKeepsActive(s: Recorder, id: string, now: int)
    requires CellOk(CellOf(s, id))
    ensures id in Rehydrate(s.disk, now).active <==> id in s.mem.active
  {
  }

  /** A restart keeps a match's idle time, save for one without a log, whose idle time starts over. */
  lemma RestartKeepsIdleTime(s: Recorder, id: string, now: int)
    requires CellOk(CellOf(s, id)) && id in s.mem.active
    ensures Get(Rehydrate(s.disk, now).lastEventAt, id)
         == if Logged(CellOf(s, id)) then Get(s.mem.lastEventAt, id) else Some(now)
  {
  }

  /** The same run with its restarts left out. */
  function Steady(acts: seq<Action>): seq<Action> {
    seq(|acts|, i requires 0 <= i < |acts| => if acts[i].Restart? then Idle else acts[i])
  }

  lemma ReapSeesTheSame(s: Recorder, t: Recorder, id: string, staleMs: int, now: int)
    requires Twins(s, t, id) && Logged(CellOf(s, id))
    ensures IsStale(s.mem, id, staleMs, now) == IsStale(t.mem, id, staleMs, now)
    ensures id in s.mem.active ==> EndMatch(s, id, now).writes == EndMatch(t, id, now).writes
  {
  }

  lemma StepInStep(s: Recorder, t: Recorder, a: Action)
    requires Inv(s) && Inv(t) && s.disk == t.disk && AllLogged(s) && !a.CrashInPost?
    ensures Next(s, a).disk == Next(t, if a.Restart? then Idle else a).disk
    ensures a.Post? ==> Done(s, a).ok == Done(t, a).ok
  {
    hide Ingest, EndMatch, Rehydrate, CellOk, ApplyAll;
    if a.Post? || a.Reap? {
      assert CellOk(CellOf(s, a.id)) && CellOk(CellOf(t, a.id)) && Logged(CellOf(s, a.id));
      if a.Post? {
        DiskDecides(s, t, a.id, a.event, a.server, a.now);
      } else {
        ReapSeesTheSame(s, t, a.id, a.staleMs, a.now);
      }
    }
  }

  /** Restarts are invisible: a crash-free run and the same run without its restarts write the same files
      and answer every POST alike. */
  lemma {:induction false} RestartsAreInvisible(
      states: seq<Recorder>, plain: seq<Recorder>, acts: seq<Action>, k: nat)
    requires Runs(states, acts) && Runs(plain, Steady(acts)) && NoCrash(acts) && k < |states|
    requires plain[0] == states[0] && Starts(states[0]) && AllLogged(states[0])
    ensures plain[k].disk == states[k].disk && AllLogged(states[k])
    ensures k < |acts| && acts[k].Post? ==> Done(states[k], acts[k]).ok == Done(plain[k], acts[k]).ok
  {
    hide Next, Starts, Logged, Inv;
    MemoryMirrorsDisk(states, acts, k);
    MemoryMirrorsDisk(plain, Steady(acts), k);
    if k > 0 {
      RestartsAreInvisible(states, plain, acts, k - 1);
      MemoryMirrorsDisk(states, acts, k - 1);
      MemoryMirrorsDisk(plain, Steady(acts), k - 1);
      var a := acts[k - 1];
      assert states[k] == Next(states[k - 1], a);
      assert plain[k] == Next(plain[k - 1], Steady(acts)[k - 1]);
      StepInStep(states[k - 1], plain[k - 1], a);
      StepKeepsLogged(states[k - 1], a);
    }
    if k < |acts| && acts[k].Post? {
      StepInStep(states[k], plain[k], acts[k]);
    }
  }

  /** The lines a plan's writes append, in order. */
  function RowsOf(ws: seq<Write>): seq<Row> {
    if ws == [] then []
    else RowsOf(ws[..|ws| - 1]) + if ws[|ws| - 1].AppendRow? then [ws[|ws| - 1].row] else []
  }

  /** Whether the append is among the first `k` writes. */
  predicate AppendDone(ws: seq<Write>, k: nat) { exists i :: 0 <= i < |ws| && i < k && ws[i].AppendRow? }

  lemma {:induction false} LogAfterWrites(id: string, d: Disk, ws: seq<Write>)
    requires AllOk(id, d, ws)
    ensures DirOf(ApplyAll(d, ws), id).Rows() == DirOf(d, id).Rows() + RowsOf(ws)
  {
    if ws != [] {
      var n := |ws| - 1;
      AllOkPrefix(id, d, ws, n);
      LogAfterWrites(id, d, ws[..n]);
      assert Fitting(ApplyAll(d, ws[..n]), ws[n]);
    }
  }

  lemma {:induction false} RowsInParts(a: seq<Write>, b: seq<Write>)
    ensures RowsOf(a + b) == RowsOf(a) + RowsOf(b)
  {
    if b == [] {
      assert a + b == a;
    } else {
      RowsInParts(a, b[..|b| - 1]);
      assert (a + b)[..|a + b| - 1] == a + b[..|b| - 1];
    }
  }

  lemma {:induction false} SomeRow(ws: seq<Write>)
    ensures RowsOf(ws) != [] <==> AppendDone(ws, |ws|)
  {
    if ws != [] {
      SomeRow(ws[..|ws| - 1]);
    }
  }

  /** The line a POST stores if it is accepted. */
  function Stored(s: Recorder, post: Action, id: string): seq<Row>
    requires post.Post?
  {
    if post.id == id && Done(s, post).ok && !IsSocketOnly(post.event.name)
    then [Row(post.event, post.server, post.now)] else []
  }

  /** The line a step adds to `id`'s log: a POST's own, or that of one cut short after its append. */
  function Accepted(s: Recorder, a: Action, id: string): seq<Row> {
    if a.Post? then Stored(s, a, id)
    else if a.CrashInPost? && a.post.Post? && AppendDone(Done(s, a.post).writes, a.writesDone)
    then Stored(s, a.post, id)
    else []
  }

  function History(states: seq<Recorder>, acts: seq<Action>, id: string, k: nat): seq<Row>
    requires k <= |acts| < |states|
  {
    if k == 0 then [] else History(states, acts, id, k - 1) + Accepted(states[k - 1], acts[k - 1], id)
  }

  lemma Cancel(a: seq<Row>, b: seq<Row>, c: seq<Row>)
    requires a + b == a + c
    ensures b == c
  {
    assert b == (a + b)[|a|..] && c == (a + c)[|a|..];
  }

  /** A POST's plan appends its own line and no other. */
  lemma PlanRows(s: Recorder, post: Action)
    requires Inv(s) && post.Post?
    ensures RowsOf(Done(s, post).writes) == Stored(s, post, post.id) && AllOk(post.id, s.disk, Done(s, post).writes)
  {
    hide Ingest, ApplyAll, CellOk, AllOk;
    var p := Done(s, post);
    assert CellOk(CellOf(s, post.id));
    IngestIsSound(s, post.id, post.event, post.server, post.now);
    LogAfterWrites(post.id, s.disk, p.writes);
    Cancel(DirOf(s.disk, post.id).Rows(), RowsOf(p.writes), Stored(s, post, post.id));
  }

  /** A crash stores the POST's line or nothing, by whether its append was done. */
  lemma CrashLogs(s: Recorder, post: Action, k: nat, id: string)
    requires Inv(s) && post.Post?
    ensures DirOf(Torn(s, Done(s, post), k), id).Rows()
         == DirOf(s.disk, id).Rows() + if AppendDone(Done(s, post).writes, k) then Stored(s, post, id) else []
  {
    hide Done, ApplyAll, AllOk, AppendDone, DirOf, Inv, DirOk, Extends, RowsOf;
    CrashTearsNothing(s, post, k);
    if id == post.id {
      PlanRows(s, post);
      var ws := Done(s, post).writes;
      var n := if k <= |ws| then k else |ws|;
      var part := ws[..n];
      assert ws[..|ws|] == ws && ws == part + ws[n..];
      AllOkPrefix(id, s.disk, ws, n);
      LogAfterWrites(id, s.disk, part);
      RowsInParts(part, ws[n..]);
      SomeRow(part);
      SameAppend(ws, k, n);
      OneLine(RowsOf(part), RowsOf(ws[n..]), Stored(s, post, id));
    }
  }

  lemma SameAppend(ws: seq<Write>, k: nat, n: nat)
    requires n == if k <= |ws| then k else |ws|
    ensures AppendDone(ws, k) <==> AppendDone(ws[..n], n)
  {
    if AppendDone(ws, k) {
      var i :| 0 <= i < |ws| && i < k && ws[i].AppendRow?;
      assert ws[..n][i] == ws[i];
    }
  }

  lemma OneLine(a: seq<Row>, b: seq<Row>, all: seq<Row>)
    requires a + b == all && |all| <= 1
    ensures a == if a != [] then all else []
  {
  }

  lemma StepLogs(s: Recorder, a: Action, id: string)
    requires Inv(s)
    ensures DirOf(Next(s, a).disk, id).Rows() == DirOf(s.disk, id).Rows() + Accepted(s, a, id)
  {
    hide Ingest, EndMatch, Rehydrate, CellOk, ApplyAll, AppendDone;
    if a.Post? || a.Reap? {
      assert CellOk(CellOf(s, a.id));
      if a.Post? {
        IngestIsSound(s, a.id, a.event, a.server, a.now);
        WritesKeepOthers(s, a.id, Done(s, a), id);
      } else if a.id in s.mem.active {
        EndIsSound(s, a.id, a.now);
        WritesKeepOthers(s, a.id, EndMatch(s, a.id, a.now), id);
      }
    } else if a.CrashInPost? && a.post.Post? {
      CrashLogs(s, a.post, a.writesDone, id);
    }
  }

  lemma WritesKeepOthers(s: Recorder, id: string, p: Plan, other: string)
    requires Inv(s) && Sound(s, id, p)
    ensures other != id ==> DirOf(After(s, p).disk, other) == DirOf(s.disk, other)
  {
    assert CellOk(CellOf(s, id));
    WritesKeepDir(id, s.disk, p.writes);
  }

  /** Nothing lost, nothing made up: over every run, restarts, reaping and crashes included, a match's log is
      what it was at the start followed by exactly the events accepted for it, in the order accepted; an
      event whose POST was cut short is there exactly when its append was done. */
  lemma {:induction false} LogIsWhatWasAccepted(states: seq<Recorder>, acts: seq<Action>, id: string, k: nat)
    requires Runs(states, acts) && Starts(states[0]) && k < |states|
    ensures DirOf(states[k].disk, id).Rows() == DirOf(states[0].disk, id).Rows() + History(states, acts, id, k)
  {
    hide Next, Starts, Inv, Accepted;
    if k > 0 {
      LogIsWhatWasAccepted(states, acts, id, k - 1);
      MemoryMirrorsDisk(states, acts, k - 1);
      assert states[k] == Next(states[k - 1], acts[k - 1]);
      StepLogs(states[k - 1], acts[k - 1], id);
    }
  }

  /** When a start is taken: for a new match, or for an open one from its own server, unless it would fill in
      a placeholder that already knows another map. */
  predicate StartAllowed(dir: MatchDir, mapName: string, half: int, server: string) {
    dir.meta.None?
    || (var meta := dir.meta.value;
        meta.endedAt.None? && meta.sourceServer == server
        && !(meta.half == 0 && half > 0 && meta.mapName != "unknown" && meta.mapName != mapName))
  }

  /** When an event is stored: for a new match, for an open one from its own server, or for a completed one
      from its own server if it is a final row inside the settlement window. */
  predicate EventAllowed(dir: MatchDir, e: Event, server: string, now: int) {
    dir.meta.None?
    || (dir.meta.value.sourceServer == server
        && (dir.meta.value.endedAt.Some? ==> AdmissibleLate(dir.meta.value.endedAt.value, e, now)))
  }

  /** When a transient row is forwarded: never after completion, only from its own server while open. */
  predicate TransientAllowed(dir: MatchDir, server: string) {
    dir.meta.None? || (dir.meta.value.endedAt.None? && dir.meta.value.sourceServer == server)
  }

  lemma StartRule(s: Recorder, id: string, mapName: string, matchType: int, half: int, server: string, now: int)
    requires CellOk(CellOf(s, id))
    ensures
      var p := StartMatch(s, id, mapName, matchType, half, server, now);
      && p.ok == StartAllowed(DirOf(s.disk, id), mapName, half, server)
      && (p.ok ==> id in p.mem.active && id in p.mem.metadata && p.mem.metadata[id].sourceServer == server)
  {
    hide ApplyAll, Apply, DirOk;
    LookUpIsSound(s, id);
  }

  lemma RecordRule(s: Recorder, id: string, e: Event, server: string, now: int)
    requires CellOk(CellOf(s, id))
    ensures RecordEvent(s, id, e, server, now).ok == EventAllowed(DirOf(s.disk, id), e, server, now)
    ensures id in s.mem.active && s.mem.metadata[id].sourceServer == server ==> RecordEvent(s, id, e, server, now).ok
  {
    hide StartMatch, ApplyAll, Apply, DirOk, AllOk;
    NoWrites(id, s.disk);
    LookUpIsSound(s, id);
    LookUpKeepsLogs(s, id);
    var found := if id in s.mem.active then Plan(s.mem, [], false) else LookUp(s, id);
    var t := After(s, found);
    StartRule(t, id, e.mapName.GetOr("unknown"), 0, 0, server, now);
  }

  /** Exactly which POSTs the recorder accepts, told from the match's files alone. */
  lemma AcceptedExactlyWhen(s: Recorder, id: string, e: Event, server: string, now: int)
    requires CellOk(CellOf(s, id))
    ensures
      var dir := DirOf(s.disk, id);
      Ingest(s, id, e, server, now).ok ==
        if e.name == "ktp_match_start" then StartAllowed(dir, e.mapName.GetOr("unknown"), e.half.GetOr(0), server)
        else if IsSocketOnly(e.name) then TransientAllowed(dir, server)
        else EventAllowed(dir, e, server, now)
  {
    hide StartMatch, RecordEvent, LookUp, ApplyAll, Apply, DirOk, AllOk;
    NoWrites(id, s.disk);
    StartIsSound(s, id, e.mapName.GetOr("unknown"), e.matchType.GetOr(0), e.half.GetOr(0), server, now);
    StartRule(s, id, e.mapName.GetOr("unknown"), e.matchType.GetOr(0), e.half.GetOr(0), server, now);
    var begun := if e.name == "ktp_match_start"
                 then StartMatch(s, id, e.mapName.GetOr("unknown"), e.matchType.GetOr(0), e.half.GetOr(0), server, now)
                 else Plan(s.mem, [], true);
    var t := After(s, begun);
    if begun.ok {
      LookUpIsSound(t, id);
      RecordRule(t, id, e, server, now);
    }
  }
}
