/** Per-match event storage: a metadata file and an append-only log per match, rebuilt from disk when
    the backend starts. Instants are whole milliseconds. Each operation is planned as the memory it
    leaves and the file writes it makes, in order, so that a crash can fall between any two. */
module MatchRecorder {
  import opened Wrappers

  const METADATA_FLUSH_INTERVAL := 100
  const LATE_EVENT_SETTLEMENT_MS := 30000

  datatype Event = Event(
    name: string, mapName: Option<string>, matchType: Option<int>, half: Option<int>,
    source: string, sampleKind: string, reason: string)

  /** A log line. Who posted it and when are not stored by the code; they are kept here to state
      where lines come from. */
  datatype Row = Row(event: Event, postedBy: string, at: int)

  datatype MatchMetadata = MatchMetadata(
    mapName: string, matchType: int, half: int, startedAt: int, endedAt: Option<int>,
    eventCount: int, sourceServer: string)

  /** A match directory: either file may be missing. `mtime` is the log's. */
  datatype MatchDir = MatchDir(meta: Option<MatchMetadata>, log: Option<seq<Row>>, mtime: int)
  {
    function Rows(): seq<Row> { log.GetOr([]) }
  }

  type Disk = map<string, MatchDir>

  datatype Write =
    | MkDir(id: string)
    | WriteMeta(id: string, meta: MatchMetadata)
    | CreateLog(id: string, now: int)
    | AppendRow(id: string, row: Row)

  const NO_FILES := MatchDir(None, None, 0)

  function DirOf(d: Disk, id: string): MatchDir { Get(d, id).GetOr(NO_FILES) }

  /** What a write does to its own directory. */
  function Written(dir: MatchDir, w: Write): MatchDir {
    match w
    case MkDir(_) => dir
    case WriteMeta(_, meta) => dir.(meta := Some(meta))
    case CreateLog(_, now) => dir.(log := Some([]), mtime := now)
    case AppendRow(_, row) => dir.(log := Some(dir.Rows() + [row]), mtime := row.at)
  }

  function Apply(d: Disk, w: Write): Disk { d[w.id := Written(DirOf(d, w.id), w)] }

  function ApplyAll(d: Disk, ws: seq<Write>): Disk
    decreases |ws|
  {
    if ws == [] then d else Apply(ApplyAll(d, ws[..|ws| - 1]), ws[|ws| - 1])
  }

  lemma {:induction false} ApplyInParts(d: Disk, a: seq<Write>, b: seq<Write>)
    ensures ApplyAll(d, a + b) == ApplyAll(ApplyAll(d, a), b)
  {
    if b == [] {
      assert a + b == a;
    } else {
      ApplyInParts(d, a, b[..|b| - 1]);
      assert (a + b)[..|a + b| - 1] == a + b[..|b| - 1];
    }
  }

  datatype Memory = Memory(
    active: set<string>, metadata: map<string, MatchMetadata>, lastEventAt: map<string, int>)

  datatype Recorder = Recorder(mem: Memory, disk: Disk)

  /** What an operation does: the memory it leaves, its writes in order, and its answer. */
  datatype Plan = Plan(mem: Memory, writes: seq<Write>, ok: bool)

  function After(s: Recorder, p: Plan): Recorder { Recorder(p.mem, ApplyAll(s.disk, p.writes)) }

  /** A match the start-up scan takes back: its metadata is there and has no end. */
  predicate IsOpen(dir: MatchDir) { dir.meta.Some? && dir.meta.value.endedAt.None? }

  function Recount(dir: MatchDir): MatchMetadata
    requires dir.meta.Some?
  {
    dir.meta.value.(eventCount := |dir.Rows()|)
  }

  /** The start-up scan of the directories named in `ids`. */
  function Scan(d: Disk, ids: set<string>, now: int): Memory {
    var open := set id | id in ids && id in d && IsOpen(d[id]);
    Memory(open,
           map id | id in open :: Recount(d[id]),
           map id | id in open :: if d[id].log.Some? then d[id].mtime else now)
  }

  function Rehydrate(d: Disk, now: int): Memory { Scan(d, d.Keys, now) }

  lemma ScanNone(d: Disk, now: int)
    ensures Scan(d, {}, now) == Memory({}, map[], map[])
  {
  }

  lemma ScanOneMore(d: Disk, ids: set<string>, id: string, now: int)
    requires id in d
    ensures
      var m := Scan(d, ids, now);
      Scan(d, ids + {id}, now) ==
      if !IsOpen(d[id]) then m
      else Memory(m.active + {id}, m.metadata[id := Recount(d[id])],
                  m.lastEventAt[id := if d[id].log.Some? then d[id].mtime else now])
  {
    hide IsOpen;
    var m, next := Scan(d, ids, now), Scan(d, ids + {id}, now);
    if IsOpen(d[id]) {
      assert next.active == m.active + {id};
    } else {
      assert next.active == m.active;
    }
  }

  function Remember(m: Memory, id: string, meta: MatchMetadata): Memory {
    m.(metadata := m.metadata[id := meta])
  }

  /** Find a completed match without activating it; one first read from disk has its count repaired. */
  function LookUp(s: Recorder, id: string): Plan {
    if id in s.mem.metadata then Plan(s.mem, [], s.mem.metadata[id].endedAt.Some?)
    else if DirOf(s.disk, id).meta.None? then Plan(s.mem, [], false)
    else
      var dir := DirOf(s.disk, id);
      var meta := dir.meta.value;
      if meta.endedAt.None? then Plan(Remember(s.mem, id, meta), [], false)
      else if meta.eventCount != |dir.Rows()| then
        Plan(Remember(s.mem, id, Recount(dir)), [WriteMeta(id, Recount(dir))], true)
      else Plan(Remember(s.mem, id, meta), [], true)
  }

  function Open(s: Recorder, id: string, meta: MatchMetadata, now: int): Plan {
    Plan(Memory(s.mem.active + {id}, s.mem.metadata[id := meta], s.mem.lastEventAt[id := now]),
         [MkDir(id), WriteMeta(id, meta)] + if DirOf(s.disk, id).log.None? then [CreateLog(id, now)] else [],
         true)
  }

  /** A start for an active match: refuse a stranger, fill in a placeholder, ignore a duplicate. */
  function StartAgain(s: Recorder, id: string, mapName: string, matchType: int, half: int, server: string): Plan {
    if id !in s.mem.metadata || s.mem.metadata[id].sourceServer != server then Plan(s.mem, [], false)
    else
      var existing := s.mem.metadata[id];
      if existing.endedAt.None? && existing.half == 0 && half > 0 then
        if existing.mapName != "unknown" && existing.mapName != mapName then Plan(s.mem, [], false)
        else
          var upgraded := existing.(mapName := mapName, matchType := matchType, half := half);
          Plan(Remember(s.mem, id, upgraded), [WriteMeta(id, upgraded)], true)
      else Plan(s.mem, [], true)
  }

  /** Run `p`, then what `s` after it plans. */
  function Then(p: Plan, next: Plan): Plan { Plan(next.mem, p.writes + next.writes, next.ok) }

  function StartMatch(s: Recorder, id: string, mapName: string, matchType: int, half: int, server: string, now: int)
    : Plan
  {
    if id in s.mem.active then StartAgain(s, id, mapName, matchType, half, server)
    else
      var found := LookUp(s, id);
      if found.ok then found.(ok := false)
      else Then(found, Open(After(s, found), id, MatchMetadata(mapName, matchType, half, now, None, 0, server), now))
  }

  predicate IsFinalRow(e: Event) {
    || (e.name == "team_score" && e.source == "engine-team-score-v1" && e.sampleKind == "final")
    || (e.name == "player_stats_summary" && e.reason == "match_end")
  }

  predicate AdmissibleLate(endedAt: int, e: Event, now: int) {
    0 <= now - endedAt <= LATE_EVENT_SETTLEMENT_MS && IsFinalRow(e)
  }

  /** Append to a match whose metadata is in memory. */
  function Append(s: Recorder, id: string, e: Event, server: string, now: int): Plan
    requires id in s.mem.metadata
  {
    var meta := s.mem.metadata[id];
    var counted := meta.(eventCount := meta.eventCount + 1);
    var late := id !in s.mem.active;
    var mem := Remember(s.mem, id, counted);
    Plan(if late then mem else mem.(lastEventAt := mem.lastEventAt[id := now]),
         [AppendRow(id, Row(e, server, now))]
         + if late || counted.eventCount % METADATA_FLUSH_INTERVAL == 0 then [WriteMeta(id, counted)] else [],
         true)
  }

  function RecordEvent(s: Recorder, id: string, e: Event, server: string, now: int): Plan {
    var active := id in s.mem.active;
    var found := if active then Plan(s.mem, [], false) else LookUp(s, id);
    var started := if active || found.ok then found
                  else Then(found, StartMatch(After(s, found), id, e.mapName.GetOr("unknown"), 0, 0, server, now));
    if !active && !found.ok && !started.ok then started.(ok := false)
    else
      var t := After(s, started);
      if id !in t.mem.metadata || t.mem.metadata[id].sourceServer != server then started.(ok := false)
      else if found.ok && t.mem.metadata[id].endedAt.Some?
              && !AdmissibleLate(t.mem.metadata[id].endedAt.value, e, now) then started.(ok := false)
      else Then(started, Append(t, id, e, server, now))
  }

  function EndMatch(s: Recorder, id: string, now: int): Plan {
    if id !in s.mem.metadata then Plan(s.mem, [], true)
    else
      var ended := s.mem.metadata[id].(endedAt := Some(now));
      Plan(Memory(s.mem.active - {id}, s.mem.metadata[id := ended], s.mem.lastEventAt - {id}),
           [WriteMeta(id, ended)], true)
  }

  predicate IsStale(m: Memory, id: string, staleMs: int, now: int) {
    id in m.active && now - Get(m.lastEventAt, id).GetOr(0) > staleMs
  }

  /** Every match of `ids` ended at `now`; one without metadata is left as it is. */
  function EndAll(s: Recorder, ids: set<string>, now: int): Recorder {
    var known := ids * s.mem.metadata.Keys;
    Recorder(
      Memory(s.mem.active - known,
             map id | id in s.mem.metadata ::
               if id in known then s.mem.metadata[id].(endedAt := Some(now)) else s.mem.metadata[id],
             s.mem.lastEventAt - known),
      map id | id in s.disk.Keys + known ::
        if id in known then DirOf(s.disk, id).(meta := Some(s.mem.metadata[id].(endedAt := Some(now))))
        else s.disk[id])
  }

  lemma EndOneMore(s: Recorder, ids: set<string>, id: string, now: int)
    requires id !in ids
    ensures EndAll(s, ids + {id}, now) == After(EndAll(s, ids, now), EndMatch(EndAll(s, ids, now), id, now))
  {
    var t, r := EndAll(s, ids, now), EndAll(s, ids + {id}, now);
    var known := ids * s.mem.metadata.Keys;
    if id in s.mem.metadata {
      assert (ids + {id}) * s.mem.metadata.Keys == known + {id};
      EndOneMoreFile(s, ids, id, now);
      assert r.mem == EndMatch(t, id, now).mem by {
        hide Apply, ApplyAll, DirOf;
      }
    } else {
      assert (ids + {id}) * s.mem.metadata.Keys == known;
    }
  }

  lemma EndOneMoreFile(s: Recorder, ids: set<string>, id: string, now: int)
    requires id !in ids && id in s.mem.metadata
    ensures EndAll(s, ids + {id}, now).disk
         == ApplyAll(EndAll(s, ids, now).disk, EndMatch(EndAll(s, ids, now), id, now).writes)
  {
    var t := EndAll(s, ids, now);
    var w := WriteMeta(id, s.mem.metadata[id].(endedAt := Some(now)));
    assert EndMatch(t, id, now).writes == [w] && [w][..0] == [];
    assert ApplyAll(t.disk, [w]) == Apply(t.disk, w);
    assert DirOf(t.disk, id) == DirOf(s.disk, id);
  }

  lemma EndNone(s: Recorder, now: int)
    ensures EndAll(s, {}, now) == s
  {
    var t := EndAll(s, {}, now);
    assert {} * s.mem.metadata.Keys == {};
    assert t.disk == s.disk && t.mem == s.mem;
  }

  lemma EndAllKeeps(s: Recorder, ids: set<string>, id: string, now: int)
    requires id !in ids
    ensures Get(EndAll(s, ids, now).mem.lastEventAt, id) == Get(s.mem.lastEventAt, id)
  {
  }

  predicate IsSocketOnly(name: string) { name == "player_state" || name == "weapon_active" }

  /** The recorder's part of one POST, in the handler's order. */
  function Ingest(s: Recorder, id: string, e: Event, server: string, now: int): Plan {
    var (mapName, matchType, half) := (e.mapName.GetOr("unknown"), e.matchType.GetOr(0), e.half.GetOr(0));
    var started := if e.name == "ktp_match_start" then StartMatch(s, id, mapName, matchType, half, server, now)
                   else Plan(s.mem, [], true);
    if !started.ok then started
    else
      var t := After(s, started);
      if IsSocketOnly(e.name) then
        if id in t.mem.active then
          started.(ok := id in t.mem.metadata && t.mem.metadata[id].sourceServer == server)
        else
          var found := LookUp(t, id);
          Then(started, found.(ok := !found.ok))
      else
        var recorded := RecordEvent(t, id, e, server, now);
        if recorded.ok && e.name == "ktp_match_end"
        then Then(started, Then(recorded, EndMatch(After(t, recorded), id, now)))
        else Then(started, recorded)
  }

  class MatchRecorder {
    var activeMatches: set<string>
    var metadata: map<string, MatchMetadata>
    var lastEventAt: map<string, int>
    var disk: Disk
    ghost var written: seq<Write>
    ghost const start: Disk

    ghost function View(): Recorder
      reads this
    {
      Recorder(Memory(activeMatches, metadata, lastEventAt), disk)
    }

    /** The disk is what the start-up disk becomes under the writes since. */
    ghost predicate Valid()
      reads this
    {
      disk == ApplyAll(start, written)
    }

    /** The operation did what was planned, write for write. */
    twostate predicate Did(p: Plan)
      reads this
    {
      Valid() && View() == After(old(View()), p) && written == old(written) + p.writes
    }

    twostate lemma Replays(p: Plan)
      requires old(Valid()) && Valid() && written == old(written) + p.writes && View().mem == p.mem
      ensures Did(p)
    {
      ApplyInParts(start, old(written), p.writes);
    }

    constructor (disk: Disk, now: int)
      ensures Valid() && View() == Recorder(Rehydrate(disk, now), disk) && written == []
    {
      this.disk, written, start := disk, [], disk;
      activeMatches, metadata, lastEventAt := {}, map[], map[];
      new;
      RehydrateActiveMatches(now);
    }

    /** Take back every match on disk that has no end. */
    method RehydrateActiveMatches(now: int)
      requires Valid() && View().mem == Memory({}, map[], map[])
      modifies `activeMatches, `metadata, `lastEventAt
      ensures Valid() && View() == Recorder(Rehydrate(disk, now), disk)
    {
      hide ApplyAll, Scan;
      var todo := disk.Keys;
      ScanNone(disk, now);
      assert disk.Keys - todo == {};
      while todo != {}
        invariant todo <= disk.Keys
        invariant View().mem == Scan(disk, disk.Keys - todo, now)
        decreases todo
      {
        var id :| id in todo;
        ScanOneMore(disk, disk.Keys - todo, id, now);
        assert disk.Keys - todo + {id} == disk.Keys - (todo - {id});
        todo := todo - {id};
        if disk[id].meta.Some? && disk[id].meta.value.endedAt.None? {
          metadata := metadata[id := disk[id].meta.value.(eventCount := |disk[id].Rows()|)];
          activeMatches := activeMatches + {id};
          lastEventAt := lastEventAt[id := if disk[id].log.Some? then disk[id].mtime else now];
        }
      }
      assert disk.Keys - todo == disk.Keys;
    }

    /** One synchronous file operation. */
    method Put(w: Write)
      requires Valid()
      modifies this`disk, this`written
      ensures Valid() && disk == Apply(old(disk), w) && written == old(written) + [w]
    {
      disk := Apply(disk, w);
      written := written + [w];
      assert written[..|written| - 1] == old(written);
    }

    method GetCompletedMetadata(id: string) returns (found: bool)
      requires Valid()
      modifies this
      ensures Did(LookUp(old(View()), id)) && found == LookUp(old(View()), id).ok
    {
      if id in metadata {
        Replays(LookUp(old(View()), id));
        return metadata[id].endedAt.Some?;
      }
      if id !in disk || disk[id].meta.None? {
        Replays(LookUp(old(View()), id));
        return false;
      }
      var meta := disk[id].meta.value;
      metadata := metadata[id := meta];
      if meta.endedAt.Some? {
        var eventCount := |disk[id].Rows()|;
        if meta.eventCount != eventCount {
          meta := meta.(eventCount := eventCount);
          metadata := metadata[id := meta];
          Put(WriteMeta(id, meta));
        }
      }
      Replays(LookUp(old(View()), id));
      found := meta.endedAt.Some?;
    }

    method Create(id: string, meta: MatchMetadata, now: int)
      requires Valid()
      modifies this
      ensures Did(Open(old(View()), id, meta, now))
    {
      hide ApplyAll;
      Put(MkDir(id));
      metadata := metadata[id := meta];
      Put(WriteMeta(id, meta));
      assert disk[id].log == DirOf(old(disk), id).log;
      hide Apply;
      if disk[id].log.None? {
        Put(CreateLog(id, now));
      }
      activeMatches := activeMatches + {id};
      lastEventAt := lastEventAt[id := now];
      Replays(Open(old(View()), id, meta, now));
    }

    /** A start for a match already active. */
    method StartActive(id: string, mapName: string, matchType: int, half: int, server: string) returns (ok: bool)
      requires Valid()
      modifies this
      ensures Did(StartAgain(old(View()), id, mapName, matchType, half, server))
      ensures ok == StartAgain(old(View()), id, mapName, matchType, half, server).ok
    {
      ok := id in metadata && metadata[id].sourceServer == server;
      if ok && metadata[id].endedAt.None? && metadata[id].half == 0 && half > 0 {
        var existing := metadata[id];
        if existing.mapName != "unknown" && existing.mapName != mapName {
          ok := false;
        } else {
          existing := existing.(mapName := mapName, matchType := matchType, half := half);
          metadata := metadata[id := existing];
          Put(WriteMeta(id, existing));
        }
      }
      Replays(StartAgain(old(View()), id, mapName, matchType, half, server));
    }

    method Start(id: string, mapName: string, matchType: int, half: int, server: string, now: int) returns (ok: bool)
      requires Valid()
      modifies this
      ensures Did(StartMatch(old(View()), id, mapName, matchType, half, server, now))
      ensures ok == StartMatch(old(View()), id, mapName, matchType, half, server, now).ok
    {
      hide LookUp, StartAgain, Apply, ApplyAll;
      if id in activeMatches {
        ok := StartActive(id, mapName, matchType, half, server);
        return;
      }
      var completed := GetCompletedMetadata(id);
      if completed {
        return false;
      }
      Create(id, MatchMetadata(mapName, matchType, half, now, None, 0, server), now);
      Replays(StartMatch(old(View()), id, mapName, matchType, half, server, now));
      ok := true;
    }

    method AppendLine(id: string, e: Event, server: string, now: int)
      requires Valid() && id in metadata
      modifies this
      ensures Did(Append(old(View()), id, e, server, now))
    {
      hide Apply, ApplyAll;
      Put(AppendRow(id, Row(e, server, now)));
      var meta := metadata[id].(eventCount := metadata[id].eventCount + 1);
      metadata := metadata[id := meta];
      if id !in activeMatches {
        Put(WriteMeta(id, meta));
      } else {
        lastEventAt := lastEventAt[id := now];
        if meta.eventCount % METADATA_FLUSH_INTERVAL == 0 {
          Put(WriteMeta(id, meta));
        }
      }
      Replays(Append(old(View()), id, e, server, now));
    }

    method Record(id: string, e: Event, server: string, now: int) returns (ok: bool)
      requires Valid()
      modifies this
      ensures Did(RecordEvent(old(View()), id, e, server, now))
      ensures ok == RecordEvent(old(View()), id, e, server, now).ok
    {
      hide LookUp, StartMatch, Apply, ApplyAll;
      ghost var plan := RecordEvent(View(), id, e, server, now);
      ghost var found := if id in activeMatches then Plan(View().mem, [], false) else LookUp(View(), id);
      var completed := false;
      if id !in activeMatches {
        completed := GetCompletedMetadata(id);
        if !completed {
          var started := Start(id, e.mapName.GetOr("unknown"), 0, 0, server, now);
          if !started {
            Replays(plan);
            return false;
          }
        }
      } else {
        Replays(found);
      }
      ghost var mapName := e.mapName.GetOr("unknown");
      ghost var begun := if id in old(activeMatches) || found.ok then found
                         else Then(found, StartMatch(After(old(View()), found), id, mapName, 0, 0, server, now));
      Replays(begun);
      if id !in metadata || metadata[id].sourceServer != server {
        return false;
      }
      if completed && metadata[id].endedAt.Some? && !AdmissibleLate(metadata[id].endedAt.value, e, now) {
        return false;
      }
      label L:
      AppendLine(id, e, server, now);
      assert plan == Then(begun, Append(old@L(View()), id, e, server, now));
      Replays(plan);
      ok := true;
    }

    method End(id: string, now: int)
      requires Valid()
      modifies this
      ensures Did(EndMatch(old(View()), id, now))
    {
      if id in metadata {
        var meta := metadata[id].(endedAt := Some(now));
        metadata := metadata[id := meta];
        Put(WriteMeta(id, meta));
        activeMatches := activeMatches - {id};
        lastEventAt := lastEventAt - {id};
      }
      Replays(EndMatch(old(View()), id, now));
    }

    method Post(id: string, e: Event, server: string, now: int) returns (ok: bool)
      requires Valid()
      modifies this
      ensures Did(Ingest(old(View()), id, e, server, now))
      ensures ok == Ingest(old(View()), id, e, server, now).ok
    {
      hide LookUp, StartMatch, RecordEvent, Apply, ApplyAll;
      var mapName, matchType, half := e.mapName.GetOr("unknown"), e.matchType.GetOr(0), e.half.GetOr(0);
      ghost var begun := if e.name == "ktp_match_start"
                         then StartMatch(View(), id, mapName, matchType, half, server, now)
                         else Plan(View().mem, [], true);
      if e.name == "ktp_match_start" {
        var started := Start(id, mapName, matchType, half, server, now);
        if !started {
          return false;
        }
      }
      Replays(begun);
      label Begun:
      if IsSocketOnly(e.name) {
        if id in activeMatches {
          return id in metadata && metadata[id].sourceServer == server;
        }
        var completed := GetCompletedMetadata(id);
        assert Ingest(old(View()), id, e, server, now).writes == begun.writes + LookUp(old@Begun(View()), id).writes;
        Replays(Ingest(old(View()), id, e, server, now));
        return !completed;
      }
      ok := Record(id, e, server, now);
      if ok && e.name == "ktp_match_end" {
        label Recorded:
        End(id, now);
        assert written == old@Recorded(written) + EndMatch(old@Recorded(View()), id, now).writes;
      }
      Replays(Ingest(old(View()), id, e, server, now));
    }

    /** End every active match idle for longer than `staleMs`. */
    method ReapStaleMatches(staleMs: int, now: int) returns (reaped: set<string>)
      requires Valid()
      modifies this
      ensures Valid()
      ensures reaped == set id | id in old(activeMatches) && IsStale(old(View()).mem, id, staleMs, now)
      ensures View() == EndAll(old(View()), reaped, now)
    {
      hide EndAll, EndMatch, Apply, ApplyAll;
      ghost var before := View();
      EndNone(before, now);
      var todo := activeMatches;
      reaped := {};
      while todo != {}
        invariant Valid() && todo <= before.mem.active
        invariant reaped == set id | id in before.mem.active - todo && IsStale(before.mem, id, staleMs, now)
        invariant View() == EndAll(before, reaped, now)
        decreases todo
      {
        var id :| id in todo;
        EndAllKeeps(before, reaped, id, now);
        var last := if id in lastEventAt then lastEventAt[id] else 0;
        if now - last > staleMs {
          EndOneMore(before, reaped, id, now);
          End(id, now);
          reaped := reaped + {id};
        }
        todo := todo - {id};
      }
    }
  }
}
