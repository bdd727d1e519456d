/** A match's metadata told from what was posted: how it is filled in, when it ends, when its count is stored, and
    which rows a completed match still takes. All of it is stated on the files and the active set. */
module RecorderMetadata {
  import opened Wrappers
  import opened MatchRecorder
  import opened RecorderLaws

  function EndOf(dir: MatchDir): Option<int> { if dir.meta.Some? then dir.meta.value.endedAt else None }

  predicate EndsMatch(e: Event) { e.name == "ktp_match_end" }

  /** The metadata with the count the log implies. */
  function Told(dir: MatchDir): Option<MatchMetadata> { if dir.meta.Some? then Some(Recount(dir)) else None }

  // ---- What an accepted event makes of the metadata ----

  /** The metadata of a match not known before, opened by this post: a start names everything, any other event only
      its map. */
  function Opened(e: Event, server: string, now: int): MatchMetadata {
    var map_ := if e.mapName.Some? then e.mapName.value else "unknown";
    if e.name == "ktp_match_start"
    then MatchMetadata(map_, if e.matchType.Some? then e.matchType.value else 0,
                       if e.half.Some? then e.half.value else 0, now, None, 0, server)
    else MatchMetadata(map_, 0, 0, now, None, 0, server)
  }

  /** A start with a half fills in an open match that another event opened; nothing else changes it. */
  function FilledIn(meta: MatchMetadata, e: Event): MatchMetadata {
    if e.name == "ktp_match_start" && meta.endedAt.None? && meta.half == 0 && e.half.Some? && e.half.value > 0
    then MatchMetadata(if e.mapName.Some? then e.mapName.value else "unknown",
                       if e.matchType.Some? then e.matchType.value else 0, e.half.value,
                       meta.startedAt, None, meta.eventCount, meta.sourceServer)
    else meta
  }

  /** What an accepted post makes of the metadata: opened or filled in, ended by a match end, one event longer. */
  function Posted(told: Option<MatchMetadata>, e: Event, server: string, now: int): MatchMetadata {
    var meta := if told.Some? then FilledIn(told.value, e) else Opened(e, server, now);
    meta.(eventCount := meta.eventCount + 1, endedAt := if EndsMatch(e) then Some(now) else meta.endedAt)
  }

  lemma LookUpTells(s: Recorder, id: string)
    requires CellOk(CellOf(s, id))
    ensures Told(DirOf(After(s, LookUp(s, id)).disk, id)) == Told(DirOf(s.disk, id))
  {
    hide DirOk;
    LookUpKeepsLogs(s, id);
    var p := LookUp(s, id);
    if p.writes == [] {
      assert ApplyAll(s.disk, []) == s.disk;
    } else {
      var w := p.writes[0];
      assert p.writes == [w] && p.writes[..0] == [];
      assert ApplyAll(s.disk, p.writes) == Apply(s.disk, w);
    }
  }

  lemma StartTells(s: Recorder, id: string, e: Event, server: string, now: int, matchType: int, half: int)
    requires CellOk(CellOf(s, id))
    requires if e.name == "ktp_match_start" then matchType == e.matchType.GetOr(0) && half == e.half.GetOr(0)
             else matchType == 0 == half
    ensures
      var p, dir := StartMatch(s, id, e.mapName.GetOr("unknown"), matchType, half, server, now), DirOf(s.disk, id);
      Told(DirOf(After(s, p).disk, id)) ==
        if !p.ok || (e.name != "ktp_match_start" && dir.meta.Some?) then Told(dir)
        else if dir.meta.Some? then Some(FilledIn(Told(dir).value, e))
        else Some(Opened(e, server, now))
  {
    hide DirOk, LookUp, ApplyAll, StartAgain;
    if id in s.mem.active {
      AgainTells(s, id, e, server, matchType, half);
    } else {
      LookUpIsSound(s, id);
      LookUpKeepsLogs(s, id);
      LookUpTells(s, id);
      var found := LookUp(s, id);
      if !found.ok {
        var t := After(s, found);
        var meta := MatchMetadata(e.mapName.GetOr("unknown"), matchType, half, now, None, 0, server);
        OpenIsSound(t, id, meta, now);
        ApplyInParts(s.disk, found.writes, Open(t, id, meta, now).writes);
      }
    }
  }

  lemma AgainTells(s: Recorder, id: string, e: Event, server: string, matchType: int, half: int)
    requires CellOk(CellOf(s, id)) && id in s.mem.active
    requires if e.name == "ktp_match_start" then matchType == e.matchType.GetOr(0) && half == e.half.GetOr(0)
             else matchType == 0 == half
    ensures
      var p, dir := StartAgain(s, id, e.mapName.GetOr("unknown"), matchType, half, server), DirOf(s.disk, id);
      Told(DirOf(After(s, p).disk, id)) ==
        if !p.ok || e.name != "ktp_match_start" then Told(dir) else Some(FilledIn(Told(dir).value, e))
  {
    hide DirOk;
    var p := StartAgain(s, id, e.mapName.GetOr("unknown"), matchType, half, server);
    StartAgainIsSound(s, id, e.mapName.GetOr("unknown"), matchType, half, server);
    if p.writes == [] {
      assert ApplyAll(s.disk, []) == s.disk;
    } else {
      var w := p.writes[0];
      assert p.writes == [w] && p.writes[..0] == [];
      assert ApplyAll(s.disk, p.writes) == Apply(s.disk, w);
    }
  }

  lemma AppendTells(s: Recorder, id: string, e: Event, server: string, now: int)
    requires CellOk(CellOf(s, id)) && id in s.mem.metadata && s.mem.metadata[id].sourceServer == server
    requires id !in s.mem.active ==> AdmissibleLate(s.mem.metadata[id].endedAt.value, e, now)
    ensures
      var told := Told(DirOf(s.disk, id));
      && told.Some?
      && Told(DirOf(After(s, Append(s, id, e, server, now)).disk, id))
         == Some(told.value.(eventCount := told.value.eventCount + 1))
  {
    hide DirOk;
    AppendIsSound(s, id, e, server, now);
    var p, w := Append(s, id, e, server, now), AppendRow(id, Row(e, server, now));
    OneWrite(id, s.disk, w);
    if |p.writes| == 1 {
      assert p.writes == [w];
    } else {
      OneWrite(id, Apply(s.disk, w), p.writes[1]);
      ApplyInParts(s.disk, [w], [p.writes[1]]);
      assert p.writes == [w] + [p.writes[1]];
    }
  }

  lemma RecordTells(s: Recorder, id: string, e: Event, server: string, now: int)
    requires CellOk(CellOf(s, id)) && (e.name == "ktp_match_start" ==> id in s.mem.active)
    ensures
      var p, told := RecordEvent(s, id, e, server, now), Told(DirOf(s.disk, id));
      Told(DirOf(After(s, p).disk, id)) ==
        if !p.ok then told
        else
          var meta := if told.Some? then told.value else Opened(e, server, now);
          Some(meta.(eventCount := meta.eventCount + 1))
  {
    hide StartMatch, LookUp, ApplyAll, Apply, DirOk, Append, AdmissibleLate;
    LookUpIsSound(s, id);
    LookUpKeepsLogs(s, id);
    LookUpTells(s, id);
    var active := id in s.mem.active;
    var found := if active then Plan(s.mem, [], false) else LookUp(s, id);
    NoWrites(id, s.disk);
    var t := After(s, found);
    var start := StartMatch(t, id, e.mapName.GetOr("unknown"), 0, 0, server, now);
    var begun := if active || found.ok then found else Then(found, start);
    StartIsSound(t, id, e.mapName.GetOr("unknown"), 0, 0, server, now);
    if !active {
      StartTells(t, id, e, server, now, 0, 0);
    }
    StartRule(t, id, e.mapName.GetOr("unknown"), 0, 0, server, now);
    ApplyInParts(s.disk, found.writes, start.writes);
    RecordRule(s, id, e, server, now);
    var u := After(s, begun);
    if RecordEvent(s, id, e, server, now).ok {
      AppendTells(u, id, e, server, now);
      ApplyInParts(s.disk, begun.writes, Append(u, id, e, server, now).writes);
    }
  }

  lemma EndTells(s: Recorder, id: string, now: int)
    requires CellOk(CellOf(s, id)) && id in s.mem.active
    ensures
      var r := After(s, EndMatch(s, id, now));
      && EndMatch(s, id, now).ok && id !in r.mem.active && Told(DirOf(s.disk, id)).Some?
      && DirOf(r.disk, id).meta == Some(Told(DirOf(s.disk, id)).value.(endedAt := Some(now)))
      && Told(DirOf(r.disk, id)) == DirOf(r.disk, id).meta
  {
    var p := EndMatch(s, id, now);
    OneWrite(id, s.disk, p.writes[0]);
    assert p.writes == [p.writes[0]];
  }

  /** A post that is turned away, or is a transient row, leaves the metadata as it was; one that is taken opens the
      match, fills it in, adds to its count or ends it as its event says. Other matches keep theirs. */
  lemma PostTells(s: Recorder, id: string, e: Event, server: string, now: int)
    requires CellOk(CellOf(s, id))
    ensures
      var p, told := Ingest(s, id, e, server, now), Told(DirOf(s.disk, id));
      Told(DirOf(After(s, p).disk, id))
      == if !p.ok || e.name in {"player_state", "weapon_active"} then told else Some(Posted(told, e, server, now))
    ensures
      var p := Ingest(s, id, e, server, now);
      var dir := DirOf(After(s, p).disk, id);
      p.ok && EndsMatch(e) ==> id !in p.mem.active && dir.meta == Told(dir)
  {
    hide StartMatch, RecordEvent, LookUp, EndMatch, AllOk, ApplyAll, Apply, DirOk, Recount;
    NoWrites(id, s.disk);
    var (matchType, half) := (e.matchType.GetOr(0), e.half.GetOr(0));
    var begun := if e.name == "ktp_match_start"
                 then StartMatch(s, id, e.mapName.GetOr("unknown"), matchType, half, server, now)
                 else Plan(s.mem, [], true);
    StartIsSound(s, id, e.mapName.GetOr("unknown"), matchType, half, server, now);
    StartRule(s, id, e.mapName.GetOr("unknown"), matchType, half, server, now);
    if e.name == "ktp_match_start" {
      StartTells(s, id, e, server, now, matchType, half);
    }
    var t := After(s, begun);
    if begun.ok {
      if IsSocketOnly(e.name) {
        LookUpTells(t, id);
        ApplyInParts(s.disk, begun.writes, LookUp(t, id).writes);
      } else {
        var recorded := RecordEvent(t, id, e, server, now);
        RecordIsSound(t, id, e, server, now);
        RecordRule(t, id, e, server, now);
        RecordTells(t, id, e, server, now);
        ApplyInParts(s.disk, begun.writes, recorded.writes);
        if recorded.ok && e.name == "ktp_match_end" {
          RecordEndsActive(t, id, e, server, now);
          var u := After(t, recorded);
          EndTells(u, id, now);
          ApplyInParts(t.disk, recorded.writes, EndMatch(u, id, now).writes);
          ApplyInParts(s.disk, begun.writes, recorded.writes + EndMatch(u, id, now).writes);
        }
      }
    }
  }

  /** An accepted match end stores its instant and the log's length, and the match is no longer active. */
  lemma AcceptedEndEnds(s: Recorder, id: string, e: Event, server: string, now: int)
    requires CellOk(CellOf(s, id)) && e.name == "ktp_match_end" && Ingest(s, id, e, server, now).ok
    ensures
      var r := After(s, Ingest(s, id, e, server, now));
      var dir := DirOf(r.disk, id);
      && id !in r.mem.active && dir.meta.Some? && dir.meta.value.endedAt == Some(now)
      && dir.meta.value.eventCount == |dir.Rows()|
  {
    hide Ingest, ApplyAll;
    PostTells(s, id, e, server, now);
  }

  // ---- Over whole runs ----

  /** The end a step gives a match: an accepted match end at its instant, also when a crash cut its post short after
      the last of its writes; or a reap that finds the active match idle for longer than the limit. */
  function EndsAt(s: Recorder, a: RecorderLaws.Action, id: string): Option<int> {
    match a
    case Post(i, e, _, now) => if i == id && EndsMatch(e) && Done(s, a).ok then Some(now) else None
    case CrashInPost(post, k, _) =>
      if post.Post? && post.id == id && EndsMatch(post.event) && Done(s, post).ok && k >= |Done(s, post).writes|
      then Some(post.now) else None
    case Reap(i, staleMs, now) =>
      if i == id && id in s.mem.active && now - Get(s.mem.lastEventAt, id).GetOr(0) > staleMs then Some(now) else None
    case _ => None
  }

  predicate SetsEnd(w: Write) { w.WriteMeta? && w.meta.endedAt.Some? }

  ghost predicate KeepsOpen(ws: seq<Write>) { forall w :: w in ws ==> !SetsEnd(w) }

  /** While the match is open nothing its start or its events write ends it. */
  lemma StartKeepsOpen(s: Recorder, id: string, mapName: string, matchType: int, half: int, server: string, now: int)
    requires CellOk(CellOf(s, id)) && EndOf(DirOf(s.disk, id)).None?
    ensures KeepsOpen(StartMatch(s, id, mapName, matchType, half, server, now).writes)
    ensures KeepsOpen(LookUp(s, id).writes)
  {
    hide DirOk, ApplyAll;
  }

  lemma RecordKeepsOpen(s: Recorder, id: string, e: Event, server: string, now: int)
    requires CellOk(CellOf(s, id)) && EndOf(DirOf(s.disk, id)).None?
    ensures KeepsOpen(RecordEvent(s, id, e, server, now).writes)
  {
    hide StartMatch, ApplyAll, Apply, DirOk, AllOk, LookUp;
    StartKeepsOpen(s, id, e.mapName.GetOr("unknown"), 0, 0, server, now);
    LookUpIsSound(s, id);
    LookUpTells(s, id);
    NoWrites(id, s.disk);
    var active := id in s.mem.active;
    var found := if active then Plan(s.mem, [], false) else LookUp(s, id);
    var t := After(s, found);
    StartKeepsOpen(t, id, e.mapName.GetOr("unknown"), 0, 0, server, now);
    StartIsSound(t, id, e.mapName.GetOr("unknown"), 0, 0, server, now);
    StartRule(t, id, e.mapName.GetOr("unknown"), 0, 0, server, now);
  }

  lemma {:induction false} StaysOpen(id: string, d: Disk, ws: seq<Write>)
    requires KeepsOpen(ws) && EndOf(DirOf(d, id)).None?
    ensures EndOf(DirOf(ApplyAll(d, ws), id)).None?
  {
    if ws != [] {
      StaysOpen(id, d, ws[..|ws| - 1]);
      assert ws[|ws| - 1] in ws;
    }
  }

  /** Of the writes of a post to an open match only the last of an accepted match end ends it. */
  lemma PostKeepsOpen(s: Recorder, id: string, e: Event, server: string, now: int)
    requires CellOk(CellOf(s, id)) && EndOf(DirOf(s.disk, id)).None?
    ensures
      var p := Ingest(s, id, e, server, now);
      if EndsMatch(e) && p.ok then p.writes != [] && KeepsOpen(p.writes[..|p.writes| - 1]) else KeepsOpen(p.writes)
  {
    hide StartMatch, RecordEvent, LookUp, AllOk, ApplyAll, Apply, DirOk, SetsEnd;
    NoWrites(id, s.disk);
    var (mapName, matchType, half) := (e.mapName.GetOr("unknown"), e.matchType.GetOr(0), e.half.GetOr(0));
    var begun := if e.name == "ktp_match_start" then StartMatch(s, id, mapName, matchType, half, server, now)
                 else Plan(s.mem, [], true);
    StartIsSound(s, id, mapName, matchType, half, server, now);
    StartKeepsOpen(s, id, mapName, matchType, half, server, now);
    StaysOpen(id, s.disk, begun.writes);
    var t := After(s, begun);
    StartKeepsOpen(t, id, "", 0, 0, server, now);
    RecordKeepsOpen(t, id, e, server, now);
    if EndsMatch(e) && RecordEvent(t, id, e, server, now).ok {
      RecordEndsActive(t, id, e, server, now);
      RecordIsSound(t, id, e, server, now);
      var u := After(t, RecordEvent(t, id, e, server, now));
      assert EndMatch(u, id, now).writes == [EndMatch(u, id, now).writes[0]];
      var ws := RecordEvent(t, id, e, server, now).writes;
      assert (ws + EndMatch(u, id, now).writes)[..|ws|] == ws;
    }
  }

  /** A completed match takes no match end. */
  lemma EndedTakesNoEnd(s: Recorder, id: string, e: Event, server: string, now: int)
    requires CellOk(CellOf(s, id)) && EndOf(DirOf(s.disk, id)).Some? && EndsMatch(e)
    ensures !Ingest(s, id, e, server, now).ok
  {
    hide Ingest;
    AcceptedExactlyWhen(s, id, e, server, now);
  }

  lemma PostEnds(s: Recorder, post: RecorderLaws.Action, id: string)
    requires Inv(s) && post.Post?
    ensures
      var was := EndOf(DirOf(s.disk, id));
      EndOf(DirOf(After(s, Done(s, post)).disk, id)) == if EndsAt(s, post, id).Some? then EndsAt(s, post, id) else was
    ensures EndOf(DirOf(s.disk, id)).Some? ==> EndsAt(s, post, id).None?
  {
    hide Ingest, ApplyAll, CellOk, DirOk;
    assert CellOk(CellOf(s, post.id));
    IngestIsSound(s, post.id, post.event, post.server, post.now);
    WritesKeepOthers(s, post.id, Done(s, post), id);
    if id == post.id {
      PostTells(s, id, post.event, post.server, post.now);
      if EndOf(DirOf(s.disk, id)).Some? && EndsMatch(post.event) {
        EndedTakesNoEnd(s, id, post.event, post.server, post.now);
      }
      FilledKeepsEnd(s, post);
    }
  }

  lemma FilledKeepsEnd(s: Recorder, post: RecorderLaws.Action)
    requires post.Post?
    ensures
      var told := Told(DirOf(s.disk, post.id));
      Posted(told, post.event, post.server, post.now).endedAt
      == if EndsMatch(post.event) then Some(post.now) else EndOf(DirOf(s.disk, post.id))
  {
  }

  lemma CrashEnds(s: Recorder, post: RecorderLaws.Action, k: nat, now: int, id: string)
    requires Inv(s) && post.Post?
    ensures
      var a := CrashInPost(post, k, now);
      EndOf(DirOf(Torn(s, Done(s, post), k), id))
      == if EndsAt(s, a, id).Some? then EndsAt(s, a, id) else EndOf(DirOf(s.disk, id))
  {
    hide Ingest, ApplyAll, CellOk, DirOk, SetsEnd;
    CrashTearsNothing(s, post, k);
    PostEnds(s, post, id);
    var ws := Done(s, post).writes;
    assert ws[..|ws|] == ws;
    if id == post.id && k < |ws| && EndOf(DirOf(s.disk, id)).None? {
      assert CellOk(CellOf(s, id));
      PostKeepsOpen(s, id, post.event, post.server, post.now);
      assert forall w :: w in ws[..k] ==> w in ws[..|ws| - 1] && w in ws;
      StaysOpen(id, s.disk, ws[..k]);
    }
  }

  lemma StepEnds(s: Recorder, a: RecorderLaws.Action, id: string)
    requires Inv(s)
    ensures EndOf(DirOf(RecorderLaws.Next(s, a).disk, id))
         == if EndsAt(s, a, id).Some? then EndsAt(s, a, id) else EndOf(DirOf(s.disk, id))
    ensures EndOf(DirOf(s.disk, id)).Some? ==> EndsAt(s, a, id).None?
  {
    hide Ingest, Rehydrate, CellOk, ApplyAll, DirOk, EndMatch;
    if a.Post? {
      PostEnds(s, a, id);
    } else if a.CrashInPost? && a.post.Post? {
      CrashEnds(s, a.post, a.writesDone, a.restartAt, id);
      PostEnds(s, a.post, id);
    } else if a.Reap? && a.id in s.mem.active {
      assert CellOk(CellOf(s, a.id));
      EndIsSound(s, a.id, a.now);
      EndTells(s, a.id, a.now);
      WritesKeepOthers(s, a.id, EndMatch(s, a.id, a.now), id);
      OpenHasNoEnd(s, a.id);
    }
  }

  lemma OpenHasNoEnd(s: Recorder, id: string)
    requires CellOk(CellOf(s, id)) && id in s.mem.active
    ensures EndOf(DirOf(s.disk, id)).None?
  {
  }

  /** Over every run, restarts and crashes included, a match has the end it started with, or else that of the first
      accepted match end or reap that took it; it has one exactly when some step gave it one, and none gives it two. */
  lemma {:induction false} EndIsTold(
      states: seq<Recorder>, acts: seq<RecorderLaws.Action>, id: string, k: nat)
    requires Runs(states, acts) && Starts(states[0]) && k < |states|
    ensures EndOf(DirOf(states[0].disk, id)).Some? ==>
              EndOf(DirOf(states[k].disk, id)) == EndOf(DirOf(states[0].disk, id))
    ensures forall n {:trigger acts[n]} :: 0 <= n < k && EndsAt(states[n], acts[n], id).Some? ==>
              EndOf(DirOf(states[k].disk, id)) == EndsAt(states[n], acts[n], id)
    ensures EndOf(DirOf(states[k].disk, id)).Some? ==>
              EndOf(DirOf(states[0].disk, id)).Some?
              || exists n {:trigger acts[n]} :: 0 <= n < k && EndsAt(states[n], acts[n], id).Some?
    ensures id in states[k].mem.active <==>
              DirOf(states[k].disk, id).meta.Some? && EndOf(DirOf(states[k].disk, id)).None?
  {
    hide RecorderLaws.Next, Starts, CellOk, EndsAt, EndOf;
    MemoryMirrorsDisk(states, acts, k);
    if k > 0 {
      EndIsTold(states, acts, id, k - 1);
      MemoryMirrorsDisk(states, acts, k - 1);
      assert states[k] == RecorderLaws.Next(states[k - 1], acts[k - 1]);
      StepEnds(states[k - 1], acts[k - 1], id);
    }
    ActiveIsOpen(states[k], id);
  }

  lemma ActiveIsOpen(s: Recorder, id: string)
    requires Inv(s)
    ensures id in s.mem.active <==> DirOf(s.disk, id).meta.Some? && EndOf(DirOf(s.disk, id)).None?
  {
    assert CellOk(CellOf(s, id));
  }

  // ---- Counts and late rows ----

  predicate CountStored(dir: MatchDir) { dir.meta.Some? && dir.meta.value.eventCount == |dir.Rows()| }

  lemma AppendStores(s: Recorder, id: string, e: Event, server: string, now: int)
    requires CellOk(CellOf(s, id)) && id in s.mem.metadata && s.mem.metadata[id].sourceServer == server
    requires id !in s.mem.active ==> AdmissibleLate(s.mem.metadata[id].endedAt.value, e, now)
    ensures
      var dir := DirOf(After(s, Append(s, id, e, server, now)).disk, id);
      if id !in s.mem.active || |dir.Rows()| % 100 == 0 then CountStored(dir) else dir.meta == DirOf(s.disk, id).meta
  {
    hide DirOk;
    AppendIsSound(s, id, e, server, now);
    var p, w := Append(s, id, e, server, now), AppendRow(id, Row(e, server, now));
    OneWrite(id, s.disk, w);
    if |p.writes| == 1 {
      assert p.writes == [w];
    } else {
      OneWrite(id, Apply(s.disk, w), p.writes[1]);
      ApplyInParts(s.disk, [w], [p.writes[1]]);
      assert p.writes == [w] + [p.writes[1]];
    }
  }

  lemma RecordStores(s: Recorder, id: string, e: Event, server: string, now: int)
    requires CellOk(CellOf(s, id)) && RecordEvent(s, id, e, server, now).ok
    ensures
      var dir := DirOf(After(s, RecordEvent(s, id, e, server, now)).disk, id);
      && (EndOf(DirOf(s.disk, id)).Some? || |dir.Rows()| % 100 == 0 ==> CountStored(dir))
      && (id in s.mem.active && |dir.Rows()| % 100 != 0 ==> dir.meta == DirOf(s.disk, id).meta)
  {
    hide StartMatch, LookUp, ApplyAll, Apply, DirOk, Append, AdmissibleLate, CountStored;
    LookUpIsSound(s, id);
    LookUpKeepsLogs(s, id);
    var active := id in s.mem.active;
    var found := if active then Plan(s.mem, [], false) else LookUp(s, id);
    NoWrites(id, s.disk);
    var t := After(s, found);
    var start := StartMatch(t, id, e.mapName.GetOr("unknown"), 0, 0, server, now);
    var begun := if active || found.ok then found else Then(found, start);
    StartIsSound(t, id, e.mapName.GetOr("unknown"), 0, 0, server, now);
    StartRule(t, id, e.mapName.GetOr("unknown"), 0, 0, server, now);
    ApplyInParts(s.disk, found.writes, start.writes);
    var u := After(s, begun);
    AppendStores(u, id, e, server, now);
    ApplyInParts(s.disk, begun.writes, Append(u, id, e, server, now).writes);
  }

  /** The stored count is brought up to date by every event that makes the log a multiple of a hundred long, by a
      match end, and by every row of a completed match; any other event of an open match but a start leaves the stored
      metadata as it is. */
  lemma CountIsStored(s: Recorder, id: string, e: Event, server: string, now: int)
    requires CellOk(CellOf(s, id)) && Ingest(s, id, e, server, now).ok && !IsSocketOnly(e.name)
    ensures
      var was, dir := DirOf(s.disk, id), DirOf(After(s, Ingest(s, id, e, server, now)).disk, id);
      && (EndOf(was).Some? || EndsMatch(e) || |dir.Rows()| % 100 == 0 ==> CountStored(dir))
      && (was.meta.Some? && EndOf(was).None? && !EndsMatch(e) && e.name != "ktp_match_start" && |dir.Rows()| % 100 != 0
          ==> dir.meta == was.meta)
  {
    hide StartMatch, RecordEvent, LookUp, EndMatch, AllOk, ApplyAll, Apply, DirOk;
    if EndsMatch(e) {
      PostTells(s, id, e, server, now);
    } else {
      NoWrites(id, s.disk);
      var (mapName, matchType, half) := (e.mapName.GetOr("unknown"), e.matchType.GetOr(0), e.half.GetOr(0));
      var begun := if e.name == "ktp_match_start" then StartMatch(s, id, mapName, matchType, half, server, now)
                   else Plan(s.mem, [], true);
      StartIsSound(s, id, mapName, matchType, half, server, now);
      StartRule(s, id, mapName, matchType, half, server, now);
      var t := After(s, begun);
      RecordStores(t, id, e, server, now);
      ApplyInParts(s.disk, begun.writes, RecordEvent(t, id, e, server, now).writes);
    }
  }

  /** Which posts a completed match still takes: from its own server, within 30 s of its end and not before it, an
      official final score or the match-end summary. */
  lemma LateRowsExactlyWhen(s: Recorder, id: string, e: Event, server: string, now: int)
    requires CellOk(CellOf(s, id)) && EndOf(DirOf(s.disk, id)).Some?
    ensures
      var meta := DirOf(s.disk, id).meta.value;
      Ingest(s, id, e, server, now).ok <==>
        && server == meta.sourceServer && meta.endedAt.value <= now <= meta.endedAt.value + 30000
        && ((e.name == "team_score" && e.source == "engine-team-score-v1" && e.sampleKind == "final")
            || (e.name == "player_stats_summary" && e.reason == "match_end"))
  {
    hide Ingest;
    AcceptedExactlyWhen(s, id, e, server, now);
  }
}
