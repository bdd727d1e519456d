/** The per-server reorder buffer in front of socket emission: a tick-sorted main queue released by
    the broadcast clock, and a wall-clock drain queue for the tail of a level that has ended. */
module HltvDelayBuffer {
  import opened Wrappers
  import opened HltvSync

  /** `arrival` numbers a server's accepted posts in arrival order; the buffer never reads it. */
  datatype BufferedEvent = BufferedEvent(server: string, event: Event, enqueuedAt: real, arrival: nat)

  datatype DrainItem = DrainItem(item: BufferedEvent, releaseAt: real)

  /** One call of the fire callback; `releaseAt` is present when the drain released the event. */
  datatype Fired = Fired(item: BufferedEvent, at: real, releaseAt: Option<real>)

  datatype ServerBuffer = ServerBuffer(queue: seq<BufferedEvent>, draining: seq<DrainItem>, fired: seq<Fired>)

  const EMPTY := ServerBuffer([], [], [])

  function NumericTick(it: BufferedEvent): real { it.event.tick.GetOr(0.0) }

  predicate IsBoardEvent(e: Event) {
    e.name == "player_stats_summary" || e.name == "half_end" || e.name == "match_phase"
  }

  function ProjectReleaseAt(cfg: Config, it: BufferedEvent, basis: Option<ClockBasis>): real {
    var extra := if IsBoardEvent(it.event) then cfg.boardReleaseLagSeconds * 1000.0 else 0.0;
    match basis
    case None => it.enqueuedAt + cfg.fallbackDelaySeconds * 1000.0 + extra
    case Some(b) =>
      b.sampledAt + (NumericTick(it) - b.activeTime + b.delaySeconds) * 1000.0 - b.calibrationOffsetMs + extra
  }

  function Stamp(cfg: Config, items: seq<BufferedEvent>, basis: Option<ClockBasis>): (r: seq<DrainItem>)
    ensures |r| == |items|
    ensures forall i :: 0 <= i < |r| ==> r[i] == DrainItem(items[i], ProjectReleaseAt(cfg, items[i], basis))
  {
    if items == [] then []
    else Stamp(cfg, items[..|items| - 1], basis)
         + [DrainItem(items[|items| - 1], ProjectReleaseAt(cfg, items[|items| - 1], basis))]
  }

  predicate SortedByRelease(d: seq<DrainItem>) {
    forall i, j :: 0 <= i < j < |d| ==> d[i].releaseAt <= d[j].releaseAt
  }

  /** Place `x` behind everything due no later than it. */
  function InsertByRelease(d: seq<DrainItem>, x: DrainItem): (r: seq<DrainItem>)
    ensures multiset(r) == multiset(d) + multiset{x}
  {
    if d == [] || d[|d| - 1].releaseAt <= x.releaseAt then d + [x]
    else
      assert d == d[..|d| - 1] + [d[|d| - 1]];
      InsertByRelease(d[..|d| - 1], x) + [d[|d| - 1]]
  }

  lemma AppendKeepsSorted(d: seq<DrainItem>, last: DrainItem)
    requires SortedByRelease(d) && forall x :: x in d ==> x.releaseAt <= last.releaseAt
    ensures SortedByRelease(d + [last])
  {
    assert forall i :: 0 <= i < |d| ==> d[i] in d;
  }

  lemma {:induction false} InsertKeepsSorted(d: seq<DrainItem>, x: DrainItem)
    requires SortedByRelease(d)
    ensures SortedByRelease(InsertByRelease(d, x))
  {
    if d == [] || d[|d| - 1].releaseAt <= x.releaseAt {
      AppendKeepsSorted(d, x);
    } else {
      var front, last := d[..|d| - 1], d[|d| - 1];
      InsertKeepsSorted(front, x);
      var r := InsertByRelease(front, x);
      forall y | y in r ensures y.releaseAt <= last.releaseAt {
        assert y in multiset(r);
        assert y == x || y in front;
      }
      AppendKeepsSorted(r, last);
    }
  }

  /** The library's stable sort by release time. */
  function SortByRelease(d: seq<DrainItem>): (r: seq<DrainItem>)
    ensures multiset(r) == multiset(d)
    ensures |r| == |d|
  {
    if d == [] then []
    else
      assert d == d[..|d| - 1] + [d[|d| - 1]];
      var r := InsertByRelease(SortByRelease(d[..|d| - 1]), d[|d| - 1]);
      assert |multiset(r)| == |r| && |multiset(d)| == |d|;
      r
  }

  lemma {:induction false} SortIsSorted(d: seq<DrainItem>)
    ensures SortedByRelease(SortByRelease(d))
  {
    if d != [] {
      SortIsSorted(d[..|d| - 1]);
      InsertKeepsSorted(SortByRelease(d[..|d| - 1]), d[|d| - 1]);
    }
  }

  /** The items released at instant `at`, in order. */
  function ReleasedAt(d: seq<DrainItem>, at: real): seq<DrainItem> {
    if d == [] then []
    else if d[|d| - 1].releaseAt == at then ReleasedAt(d[..|d| - 1], at) + [d[|d| - 1]]
    else ReleasedAt(d[..|d| - 1], at)
  }

  lemma {:induction false} InsertIsStable(d: seq<DrainItem>, x: DrainItem, at: real)
    requires SortedByRelease(d)
    ensures ReleasedAt(InsertByRelease(d, x), at) == ReleasedAt(d + [x], at)
  {
    assert (d + [x])[..|d|] == d;
    if d != [] && d[|d| - 1].releaseAt > x.releaseAt {
      var front, last := d[..|d| - 1], d[|d| - 1];
      InsertIsStable(front, x, at);
      assert (front + [x])[..|front|] == front;
      var r := InsertByRelease(d, x);
      assert r[..|r| - 1] == InsertByRelease(front, x);
    }
  }

  /** Equal release times keep their arrival order: with sortedness this fixes the result. */
  lemma {:induction false} SortIsStable(d: seq<DrainItem>, at: real)
    ensures ReleasedAt(SortByRelease(d), at) == ReleasedAt(d, at)
  {
    if d != [] {
      var front, last := d[..|d| - 1], d[|d| - 1];
      var sorted := SortByRelease(front);
      SortIsSorted(front);
      SortIsStable(front, at);
      InsertIsStable(sorted, last, at);
      assert (sorted + [last])[..|sorted|] == sorted;
    }
  }

  /** Scan back from the end past every event with a higher tick. */
  function InsertByTick(q: seq<BufferedEvent>, it: BufferedEvent): seq<BufferedEvent> {
    if q == [] || NumericTick(q[|q| - 1]) <= NumericTick(it) then q + [it]
    else InsertByTick(q[..|q| - 1], it) + [q[|q| - 1]]
  }

  function DrainTail(cfg: Config, sync: ServerSync, b: ServerBuffer, items: seq<BufferedEvent>): ServerBuffer {
    if items == [] then b
    else b.(draining := SortByRelease(b.draining + Stamp(cfg, items, TailBasis(sync))))
  }

  lemma DrainTailFrame(cfg: Config, sync: ServerSync, b: ServerBuffer, items: seq<BufferedEvent>)
    ensures var r := DrainTail(cfg, sync, b, items); r.queue == b.queue && r.fired == b.fired
  {
  }

  predicate TailFarAbove(q: seq<BufferedEvent>, tick: real) {
    |q| > 0 && NumericTick(q[|q| - 1]) - tick > TICK_RESET_THRESHOLD_S
  }

  function Enqueue(cfg: Config, sync: ServerSync, b: ServerBuffer, it: BufferedEvent, now: real): ServerBuffer {
    var tick := NumericTick(it);
    if OldEpochTick(sync, tick, now) then
      DrainTail(cfg, sync, b, [it])
    else if TailFarAbove(b.queue, tick) then
      DrainTail(cfg, sync, b, b.queue).(queue := [it])
    else
      b.(queue := InsertByTick(b.queue, it))
  }

  predicate Stranded(it: BufferedEvent, activeTime: real) {
    NumericTick(it) > activeTime + TICK_RESET_THRESHOLD_S
  }

  /** The members of `q` that are (`wanted`) or are not stranded, in order. */
  function Sift(q: seq<BufferedEvent>, activeTime: real, wanted: bool): (r: seq<BufferedEvent>)
    ensures |r| <= |q|
    ensures forall it :: it in r <==> it in q && Stranded(it, activeTime) == wanted
  {
    if q == [] then []
    else
      var rest := Sift(q[..|q| - 1], activeTime, wanted);
      assert q == q[..|q| - 1] + [q[|q| - 1]];
      if Stranded(q[|q| - 1], activeTime) == wanted then rest + [q[|q| - 1]] else rest
  }

  function ReleaseStranded(cfg: Config, sync: ServerSync, b: ServerBuffer, activeTime: real): ServerBuffer {
    DrainTail(cfg, sync, b.(queue := Sift(b.queue, activeTime, false)), Sift(b.queue, activeTime, true))
  }

  /** How many leading drain items are due. */
  function DueCount(d: seq<DrainItem>, now: real): (n: nat)
    ensures n <= |d|
    ensures forall i :: 0 <= i < n ==> d[i].releaseAt <= now
    ensures n < |d| ==> now < d[n].releaseAt
  {
    if d == [] || now < d[0].releaseAt then 0 else 1 + DueCount(d[1..], now)
  }

  /** Is a main-queue event released at `now`: by the live clock, else by the fixed delay? */
  predicate Due(cfg: Config, sync: ServerSync, it: BufferedEvent, now: real) {
    match Broadcast(sync, now)
    case Some(broadcast) => NumericTick(it) <= broadcast
    case None => now - it.enqueuedAt >= cfg.fallbackDelaySeconds * 1000.0
  }

  function ReadyCount(cfg: Config, sync: ServerSync, q: seq<BufferedEvent>, now: real): (n: nat)
    ensures n <= |q|
    ensures forall i :: 0 <= i < n ==> Due(cfg, sync, q[i], now)
    ensures n < |q| ==> !Due(cfg, sync, q[n], now)
  {
    if q == [] || !Due(cfg, sync, q[0], now) then 0 else 1 + ReadyCount(cfg, sync, q[1..], now)
  }

  function FireDrained(d: seq<DrainItem>, now: real): seq<Fired> {
    seq(|d|, i requires 0 <= i < |d| => Fired(d[i].item, now, Some(d[i].releaseAt)))
  }

  function FireQueued(q: seq<BufferedEvent>, now: real): seq<Fired> {
    seq(|q|, i requires 0 <= i < |q| => Fired(q[i], now, None))
  }

  /** Phase one of a driver tick: the old tail, by wall clock. */
  function ReleaseDrain(b: ServerBuffer, now: real): ServerBuffer {
    var n := DueCount(b.draining, now);
    b.(draining := b.draining[n..], fired := b.fired + FireDrained(b.draining[..n], now))
  }

  /** Phase two: the main queue, held while the drain is not empty. */
  function ReleaseQueue(cfg: Config, sync: ServerSync, b: ServerBuffer, now: real): ServerBuffer {
    if b.draining != [] then b else
    var n := ReadyCount(cfg, sync, b.queue, now);
    b.(queue := b.queue[n..], fired := b.fired + FireQueued(b.queue[..n], now))
  }

  lemma IdleDrain(b: ServerBuffer, now: real)
    requires b.draining == []
    ensures ReleaseDrain(b, now) == b
  {
  }

  lemma IdleQueue(cfg: Config, sync: ServerSync, b: ServerBuffer, now: real)
    requires b.draining != [] || b.queue == []
    ensures ReleaseQueue(cfg, sync, b, now) == b
  {
  }

  function ReleaseDue(cfg: Config, sync: ServerSync, b: ServerBuffer, now: real): ServerBuffer {
    ReleaseQueue(cfg, sync, ReleaseDrain(b, now), now)
  }

  /** Inserting before the last element, with or without it. */
  lemma AroundLast(q: seq<BufferedEvent>, it: BufferedEvent, i: nat)
    requires i < |q|
    ensures var front := q[..|q| - 1];
      front[..i] + [it] + front[i..] + [q[|q| - 1]] == q[..i] + [it] + q[i..]
  {
  }

  /** Where the scan stops: behind everything not above the new tick, ahead of everything above it. */
  lemma {:induction false} InsertAt(q: seq<BufferedEvent>, it: BufferedEvent, i: nat)
    requires i <= |q|
    requires i > 0 ==> NumericTick(q[i - 1]) <= NumericTick(it)
    requires forall k :: i <= k < |q| ==> NumericTick(q[k]) > NumericTick(it)
    ensures InsertByTick(q, it) == q[..i] + [it] + q[i..]
    decreases |q|
  {
    hide NumericTick;
    if i < |q| {
      InsertAt(q[..|q| - 1], it, i);
      AroundLast(q, it, i);
    } else {
      assert q[..i] == q;
    }
  }

  method InsertInOrder(q: seq<BufferedEvent>, it: BufferedEvent) returns (r: seq<BufferedEvent>)
    ensures r == InsertByTick(q, it)
  {
    var i := |q|;
    while i > 0 && NumericTick(q[i - 1]) > NumericTick(it)
      invariant 0 <= i <= |q|
      invariant forall k :: i <= k < |q| ==> NumericTick(q[k]) > NumericTick(it)
    {
      i := i - 1;
    }
    r := q[..i] + [it] + q[i..];
    InsertAt(q, it, i);
  }

  method StampAll(cfg: Config, items: seq<BufferedEvent>, basis: Option<ClockBasis>) returns (d: seq<DrainItem>)
    ensures d == Stamp(cfg, items, basis)
  {
    d := [];
    for i := 0 to |items|
      invariant d == Stamp(cfg, items[..i], basis)
    {
      d := d + [DrainItem(items[i], ProjectReleaseAt(cfg, items[i], basis))];
      assert items[..i + 1][..i] == items[..i];
    }
    assert items[..|items|] == items;
  }

  lemma SiftNext(queue: seq<BufferedEvent>, n: nat, activeTime: real, wanted: bool)
    requires n < |queue|
    ensures
      var sifted := Sift(queue[..n], activeTime, wanted);
      Sift(queue[..n + 1], activeTime, wanted)
      == if Stranded(queue[n], activeTime) == wanted then sifted + [queue[n]] else sifted
  {
    assert queue[..n + 1][..n] == queue[..n];
  }

  /** The scan has `seen` of the queue behind it: kept up to `i`, the rest of `q` still to come. */
  ghost predicate Splitting(queue: seq<BufferedEvent>, seen: nat, activeTime: real,
                            q: seq<BufferedEvent>, i: nat, stranded: seq<BufferedEvent>) {
    && i <= |q| && seen <= |queue| && q[i..] == queue[seen..]
    && q[..i] == Sift(queue[..seen], activeTime, false)
    && stranded == Sift(queue[..seen], activeTime, true)
  }

  lemma OneOn(q: seq<BufferedEvent>, i: nat)
    requires i < |q|
    ensures q[i..][0] == q[i] && q[i..][1..] == q[i + 1..] && q[..i + 1] == q[..i] + [q[i]]
  {
  }

  lemma StrandsOne(queue: seq<BufferedEvent>, seen: nat, activeTime: real,
                   q: seq<BufferedEvent>, i: nat, stranded: seq<BufferedEvent>)
    requires i < |q| && Splitting(queue, seen, activeTime, q, i, stranded) && Stranded(q[i], activeTime)
    ensures Splitting(queue, seen + 1, activeTime, q[..i] + q[i + 1..], i, stranded + [q[i]])
  {
    OneOn(q, i);
    OneOn(queue, seen);
    SiftNext(queue, seen, activeTime, true);
    SiftNext(queue, seen, activeTime, false);
    hide Sift, Stranded;
    assert (q[..i] + q[i + 1..])[..i] == q[..i];
    assert (q[..i] + q[i + 1..])[i..] == q[i + 1..];
  }

  lemma KeepsOne(queue: seq<BufferedEvent>, seen: nat, activeTime: real,
                 q: seq<BufferedEvent>, i: nat, stranded: seq<BufferedEvent>)
    requires i < |q| && Splitting(queue, seen, activeTime, q, i, stranded) && !Stranded(q[i], activeTime)
    ensures Splitting(queue, seen + 1, activeTime, q, i + 1, stranded)
  {
    OneOn(q, i);
    OneOn(queue, seen);
    SiftNext(queue, seen, activeTime, true);
    SiftNext(queue, seen, activeTime, false);
    hide Sift, Stranded;
  }

  lemma SplitDone(queue: seq<BufferedEvent>, seen: nat, activeTime: real,
                  q: seq<BufferedEvent>, stranded: seq<BufferedEvent>)
    requires Splitting(queue, seen, activeTime, q, |q|, stranded)
    ensures q == Sift(queue, activeTime, false) && stranded == Sift(queue, activeTime, true)
  {
    assert queue[seen..] == q[|q|..] == [];
    assert queue[..seen] == queue && q[..|q|] == q;
  }

  /** Split off the stranded events, removing each from the queue where it stands. */
  method SplitStranded(queue: seq<BufferedEvent>, activeTime: real)
    returns (q: seq<BufferedEvent>, stranded: seq<BufferedEvent>)
    ensures q == Sift(queue, activeTime, false)
    ensures stranded == Sift(queue, activeTime, true)
  {
    q, stranded := queue, [];
    var i := 0;
    ghost var seen := 0;
    while i < |q|
      invariant 0 <= i <= |q| && Splitting(queue, seen, activeTime, q, i, stranded)
      decreases |q| - i
    {
      hide Splitting;
      if NumericTick(q[i]) > activeTime + TICK_RESET_THRESHOLD_S {
        StrandsOne(queue, seen, activeTime, q, i, stranded);
        stranded := stranded + [q[i]];
        q := q[..i] + q[i + 1..];
      } else {
        KeepsOne(queue, seen, activeTime, q, i, stranded);
        i := i + 1;
      }
      seen := seen + 1;
    }
    SplitDone(queue, seen, activeTime, q, stranded);
  }

  method PopDue(drain: seq<DrainItem>, log: seq<Fired>, now: real) returns (d: seq<DrainItem>, fired: seq<Fired>)
    ensures d == drain[DueCount(drain, now)..]
    ensures fired == log + FireDrained(drain[..DueCount(drain, now)], now)
  {
    d, fired := drain, log;
    ghost var popped := 0;
    while d != [] && now >= d[0].releaseAt
      invariant popped <= |drain| && d == drain[popped..]
      invariant fired == log + FireDrained(drain[..popped], now)
      invariant DueCount(drain, now) == popped + DueCount(d, now)
      decreases |d|
    {
      fired := fired + [Fired(d[0].item, now, Some(d[0].releaseAt))];
      d := d[1..];
      popped := popped + 1;
    }
  }

  method PopReady(cfg: Config, ghost sync: ServerSync, broadcast: Option<real>,
                  queue: seq<BufferedEvent>, log: seq<Fired>, now: real)
    returns (q: seq<BufferedEvent>, fired: seq<Fired>)
    requires broadcast == Broadcast(sync, now)
    ensures q == queue[ReadyCount(cfg, sync, queue, now)..]
    ensures fired == log + FireQueued(queue[..ReadyCount(cfg, sync, queue, now)], now)
  {
    q, fired := queue, log;
    var fallback := cfg.fallbackDelaySeconds * 1000.0;
    ghost var popped := 0;
    while q != [] && (if broadcast.None? then now - q[0].enqueuedAt >= fallback
                      else NumericTick(q[0]) <= broadcast.value)
      invariant popped <= |queue| && q == queue[popped..]
      invariant fired == log + FireQueued(queue[..popped], now)
      invariant ReadyCount(cfg, sync, queue, now) == popped + ReadyCount(cfg, sync, q, now)
      decreases |q|
    {
      fired := fired + [Fired(q[0], now, None)];
      q := q[1..];
      popped := popped + 1;
    }
  }

  /** The buffer itself. `fired` is what its callback has been handed, per server. */
  class HltvDelayBuffer {
    const sync: HltvSyncService
    var queues: map<string, seq<BufferedEvent>>
    var draining: map<string, seq<DrainItem>>
    var fired: map<string, seq<Fired>>

    constructor (sync: HltvSyncService)
      ensures this.sync == sync && Valid()
      ensures forall server :: View(server) == EMPTY
    {
      this.sync := sync;
      queues, draining, fired := map[], map[], map[];
    }

    /** A drain key is present exactly while its drain is not empty. */
    ghost predicate Valid()
      reads this
    {
      forall server :: server in draining ==> draining[server] != []
    }

    ghost function View(server: string): ServerBuffer
      reads this
    {
      ServerBuffer(Get(queues, server).GetOr([]), Get(draining, server).GetOr([]), Get(fired, server).GetOr([]))
    }

    method Drain(server: string, items: seq<BufferedEvent>)
      requires Valid()
      modifies this`draining
      ensures Valid()
      ensures View(server) == DrainTail(sync.cfg, sync.View(server), old(View(server)), items)
      ensures forall other :: other != server ==> View(other) == old(View(other))
    {
      hide Stamp, SortByRelease, TailBasis;
      if items != [] {
        var basis := sync.TailBasisOf(server);
        var d := if server in draining then draining[server] else [];
        var stamped := StampAll(sync.cfg, items, basis);
        draining := draining[server := SortByRelease(d + stamped)];
      }
    }

    /** A tick reset seen from the queue: the whole tail moves to the drain. */
    method EvictTail(server: string)
      requires Valid()
      modifies this
      ensures Valid()
      ensures var b := old(View(server));
              View(server) == DrainTail(sync.cfg, sync.View(server), b, b.queue).(queue := [])
      ensures forall other :: other != server ==> View(other) == old(View(other))
    {
      if server in queues {
        var q := queues[server];
        queues := queues[server := []];
        assert forall other :: other != server ==> View(other) == old(View(other));
        Drain(server, q);
      }
    }

    /** Does the queue's last event lie more than a threshold above `tick`? */
    method EndsFarAbove(server: string, tick: real) returns (far: bool)
      ensures far == TailFarAbove(View(server).queue, tick)
    {
      var q := if server in queues then queues[server] else [];
      far := |q| > 0 && NumericTick(q[|q| - 1]) - tick > TICK_RESET_THRESHOLD_S;
    }

    method Append(it: BufferedEvent)
      requires Valid()
      modifies this`queues
      ensures Valid()
      ensures View(it.server) == old(View(it.server)).(queue := InsertByTick(old(View(it.server)).queue, it))
      ensures forall other :: other != it.server ==> View(other) == old(View(other))
    {
      var q := if it.server in queues then queues[it.server] else [];
      q := InsertInOrder(q, it);
      queues := queues[it.server := q];
    }

    /** An event of the current level: behind the tail of one that has ended, if that is still queued. */
    method Queue(it: BufferedEvent)
      requires Valid()
      modifies this
      ensures Valid()
      ensures var b, sv := old(View(it.server)), sync.View(it.server);
              View(it.server) == if TailFarAbove(b.queue, NumericTick(it))
                                 then DrainTail(sync.cfg, sv, b, b.queue).(queue := [it])
                                 else b.(queue := InsertByTick(b.queue, it))
      ensures forall other :: other != it.server ==> View(other) == old(View(other))
    {
      assert InsertByTick([], it) == [it];
      hide View, Valid, HltvSyncService.View, DrainTail, TailFarAbove, InsertByTick;
      var reset := EndsFarAbove(it.server, NumericTick(it));
      if reset {
        EvictTail(it.server);
      }
      Append(it);
    }

    method Accept(it: BufferedEvent, now: real)
      requires Valid()
      modifies this
      ensures Valid()
      ensures View(it.server) == Enqueue(sync.cfg, sync.View(it.server), old(View(it.server)), it, now)
      ensures forall other :: other != it.server ==> View(other) == old(View(other))
    {
      hide View, Valid, HltvSyncService.View, DrainTail, TailFarAbove, OldEpochTick, InsertByTick;
      var straggler := sync.IsOldEpoch(it.server, NumericTick(it), now);
      if straggler {
        Drain(it.server, [it]);
      } else {
        Queue(it);
      }
    }

    method Rescue(server: string, activeTime: real)
      requires Valid()
      modifies this
      ensures Valid()
      ensures View(server) == ReleaseStranded(sync.cfg, sync.View(server), old(View(server)), activeTime)
      ensures forall other :: other != server ==> View(other) == old(View(other))
    {
      if server in queues {
        var q, stranded := SplitStranded(queues[server], activeTime);
        queues := queues[server := q];
        assert forall other :: other != server ==> View(other) == old(View(other));
        Drain(server, stranded);
      }
    }

    method FireDueDrain(server: string, now: real)
      requires Valid() && server in draining
      modifies this`draining, this`fired
      ensures Valid()
      ensures forall other :: other != server ==> (other in draining <==> other in old(draining))
      ensures View(server) == ReleaseDrain(old(View(server)), now)
      ensures forall other :: other != server ==> View(other) == old(View(other))
    {
      hide DueCount, FireDrained;
      var log := if server in fired then fired[server] else [];
      var d;
      d, log := PopDue(draining[server], log, now);
      fired := fired[server := log];
      if d == [] {
        draining := draining - {server};
      } else {
        draining := draining[server := d];
      }
    }

    method FireReadyQueue(server: string, now: real)
      requires Valid() && server in queues && server !in draining
      modifies this`queues, this`fired
      ensures Valid() && queues.Keys == old(queues.Keys) && draining == old(draining)
      ensures View(server) == ReleaseQueue(sync.cfg, sync.View(server), old(View(server)), now)
      ensures forall other :: other != server ==> View(other) == old(View(other))
    {
      var log := if server in fired then fired[server] else [];
      var broadcast := sync.BroadcastAt(server, now);
      var q;
      q, log := PopReady(sync.cfg, sync.View(server), broadcast, queues[server], log, now);
      fired := fired[server := log];
      queues := queues[server := q];
    }

    method TickDrains(now: real)
      requires Valid()
      modifies this`draining, this`fired
      ensures Valid()
      ensures forall server :: View(server) == ReleaseDrain(old(View(server)), now)
    {
      hide ReleaseDrain;
      var todo := draining.Keys;
      forall server | server !in todo ensures View(server) == ReleaseDrain(View(server), now) {
        IdleDrain(View(server), now);
      }
      hide View, Valid;
      while todo != {}
        invariant Valid() && forall server :: server in todo ==> server in draining
        invariant forall server :: server !in todo ==> View(server) == ReleaseDrain(old(View(server)), now)
        invariant forall server :: server in todo ==> View(server) == old(View(server))
        decreases todo
      {
        var server :| server in todo;
        FireDueDrain(server, now);
        todo := todo - {server};
      }
    }

    method TickQueues(now: real)
      requires Valid()
      modifies this`queues, this`fired
      ensures forall server :: View(server) == ReleaseQueue(sync.cfg, sync.View(server), old(View(server)), now)
    {
      hide ReleaseQueue;
      var todo := queues.Keys;
      forall server | server !in todo || server in draining
        ensures View(server) == ReleaseQueue(sync.cfg, sync.View(server), View(server), now)
      {
        IdleQueue(sync.cfg, sync.View(server), View(server), now);
      }
      hide View, Valid;
      while todo != {}
        invariant Valid() && todo <= queues.Keys
        invariant forall server :: server !in todo ==>
          View(server) == ReleaseQueue(sync.cfg, sync.View(server), old(View(server)), now)
        invariant forall server :: server in todo ==> View(server) == old(View(server))
        invariant draining == old(draining)
        decreases todo
      {
        var server :| server in todo;
        if server !in draining {
          FireReadyQueue(server, now);
        }
        todo := todo - {server};
      }
    }

    method Tick(now: real)
      requires Valid()
      modifies this
      ensures Valid()
      ensures forall server :: View(server) == ReleaseDue(sync.cfg, sync.View(server), old(View(server)), now)
    {
      TickDrains(now);
      TickQueues(now);
    }
  }
}
