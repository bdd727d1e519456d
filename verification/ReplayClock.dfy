/** The replay page's clock: paces a recording by game ticks inside a map and by wall stamps between maps.
    Milliseconds and seconds are reals. */
module ReplayClock {
  import opened Wrappers

  const NEW_MAP_MS := 30000.0

  /** A recorded event's two stamps, either of which may be missing. */
  datatype Stamp = Stamp(wall: Option<real>, tick: Option<real>)

  datatype MapSpan = MapSpan(offset: real, firstTick: real, maxTick: real, startAt: real)

  datatype Clock = Clock(maps: seq<MapSpan>, high: Option<real>)

  const START := Clock([], None)

  function Max(a: real, b: real): real { if a < b then b else a }

  function Abs(x: real): real { if x < 0.0 then -x else x }

  predicate Near(a: real, b: real) { Abs(a - b) < NEW_MAP_MS }

  function OffsetOf(wall: real, tick: real): real { wall - tick * 1000.0 }

  /** The newest map whose offset is near; the number of maps when there is none. */
  function Find(maps: seq<MapSpan>, offset: real): (j: nat)
    ensures j <= |maps|
    ensures j < |maps| ==> Near(maps[j].offset, offset)
    ensures forall i :: (if j < |maps| then j else -1) < i < |maps| ==> !Near(maps[i].offset, offset)
  {
    if maps == [] then 0
    else if Near(maps[|maps| - 1].offset, offset) then |maps| - 1
    else
      var j := Find(maps[..|maps| - 1], offset);
      if j == |maps| - 1 then |maps| else j
  }

  /** Where in the replay the map's furthest tick falls. */
  function Reached(m: MapSpan): real { m.startAt + (m.maxTick - m.firstTick) * 1000.0 }

  function Raise(high: Option<real>, at: real): Option<real> {
    if high.None? || at > high.value then Some(at) else high
  }

  function Step(c: Clock, e: Stamp): Clock {
    if e.wall.Some? && e.tick.Some? then
      var wall, tick := e.wall.value, e.tick.value;
      var j := Find(c.maps, OffsetOf(wall, tick));
      var maps := if j == |c.maps|
                  then c.maps + [MapSpan(OffsetOf(wall, tick), tick, tick, Max(c.high.GetOr(wall), wall))]
                  else c.maps;
      if j < |c.maps| - 1 then c
      else
        var m := maps[j].(maxTick := Max(maps[j].maxTick, tick));
        Clock(maps[j := m], Raise(c.high, Reached(m)))
    else if e.wall.Some? then c.(high := Raise(c.high, e.wall.value))
    else c
  }

  /** The clock after the first `n` rows. */
  function After(rows: seq<Stamp>, n: nat): Clock
    requires n <= |rows|
  {
    if n == 0 then START else Step(After(rows, n - 1), rows[n - 1])
  }

  function Readings(rows: seq<Stamp>): seq<Option<real>> {
    seq(|rows|, i requires 0 <= i < |rows| => After(rows, i + 1).high)
  }

  /** The first reading there is, used for the rows before it; 0 when there is none. */
  function First(out: seq<Option<real>>): real {
    if out == [] then 0.0 else if out[0].Some? then out[0].value else First(out[1..])
  }

  function Fill(out: seq<Option<real>>): seq<real> {
    seq(|out|, i requires 0 <= i < |out| => out[i].GetOr(First(out)))
  }

  function Replay(rows: seq<Stamp>): seq<real> { Fill(Readings(rows)) }

  /** The search through the maps, newest first. */
  method FindMap(maps: seq<MapSpan>, offset: real) returns (found: nat)
    ensures found == Find(maps, offset)
  {
    var j: nat := |maps|;
    while j > 0
      invariant 0 <= j <= |maps|
      invariant forall i :: j <= i < |maps| ==> !Near(maps[i].offset, offset)
    {
      j := j - 1;
      if Near(maps[j].offset, offset) {
        return j;
      }
    }
    return |maps|;
  }

  method ReplayTimes(rows: seq<Stamp>) returns (times: seq<real>)
    ensures times == Replay(rows)
  {
    hide Reached, OffsetOf, Near, Find, Fill;
    var out: seq<Option<real>> := [];
    var maps: seq<MapSpan> := [];
    var high: Option<real> := None;
    for n := 0 to |rows|
      invariant |out| == n && Clock(maps, high) == After(rows, n)
      invariant forall i :: 0 <= i < n ==> out[i] == After(rows, i + 1).high
    {
      var e := rows[n];
      if e.wall.Some? && e.tick.Some? {
        var wall, tick := e.wall.value, e.tick.value;
        var j := FindMap(maps, OffsetOf(wall, tick));
        if j == |maps| {
          maps := maps + [MapSpan(OffsetOf(wall, tick), tick, tick, Max(high.GetOr(wall), wall))];
        }
        if j == |maps| - 1 {
          if tick > maps[j].maxTick {
            maps := maps[j := maps[j].(maxTick := tick)];
          }
          var at := Reached(maps[j]);
          if high.None? || at > high.value {
            high := Some(at);
          }
        }
      } else if e.wall.Some? && (high.None? || e.wall.value > high.value) {
        high := e.wall;
      }
      out := out + [high];
    }
    assert out == Readings(rows);
    times := FillLeading(out);
  }

  method FillLeading(out: seq<Option<real>>) returns (times: seq<real>)
    ensures times == Fill(out)
  {
    var n := 0;
    while n < |out| && out[n].None?
      invariant n <= |out| && First(out[n..]) == First(out)
    {
      assert out[n..][1..] == out[n + 1..];
      n := n + 1;
    }
    var first := if n < |out| then out[n].value else 0.0;
    times := seq(|out|, i requires 0 <= i < |out| => out[i].GetOr(first));
  }

  // The clock never runs back

  /** In order from `a` on: once it reads, the clock goes on reading, and never less. */
  predicate NotBefore(a: Option<real>, b: Option<real>) { a.Some? ==> b.Some? && a.value <= b.value }

  lemma {:induction false} NeverBack(rows: seq<Stamp>, i: nat, j: nat)
    requires i <= j <= |rows|
    ensures NotBefore(After(rows, i).high, After(rows, j).high)
    decreases j
  {
    if i < j {
      NeverBack(rows, i, j - 1);
    }
  }

  /** The first reading is the reading at the first row that has one. */
  lemma {:induction false} FirstIsFirst(out: seq<Option<real>>, j: nat)
    requires j < |out| && out[j].Some?
    ensures exists k :: 0 <= k <= j && out[k] == Some(First(out))
  {
    if out[0].None? {
      FirstIsFirst(out[1..], j - 1);
      var k :| 0 <= k <= j - 1 && out[1..][k] == Some(First(out[1..]));
      assert out[k + 1] == out[1..][k];
    }
  }

  /** One instant per row, never decreasing, whatever the stamps. */
  lemma ReplayNeverRunsBack(rows: seq<Stamp>, i: nat, j: nat)
    requires i <= j < |rows|
    ensures |Replay(rows)| == |rows| && Replay(rows)[i] <= Replay(rows)[j]
  {
    hide Step;
    var out := Readings(rows);
    NeverBack(rows, i + 1, j + 1);
    if out[j].Some? {
      FirstIsFirst(out, j);
      var k :| 0 <= k <= j && out[k] == Some(First(out));
      NeverBack(rows, k + 1, j + 1);
    }
  }

  lemma {:induction false} SilentUntil(rows: seq<Stamp>, n: nat)
    requires n <= |rows| && forall i :: 0 <= i < n ==> rows[i].wall.None?
    ensures After(rows, n) == START
  {
    if n > 0 {
      SilentUntil(rows, n - 1);
    }
  }

  lemma {:induction false} FirstAt(out: seq<Option<real>>, j: nat)
    requires j <= |out| && forall i :: 0 <= i < j ==> out[i].None?
    ensures First(out) == if j == |out| then 0.0 else First(out[j..])
  {
    if j > 0 {
      FirstAt(out[1..], j - 1);
      assert j < |out| ==> out[1..][j - 1..] == out[j..];
    } else {
      assert out[0..] == out;
    }
  }

  /** Until the first wall stamp, at row `j`, every row takes that stamp's instant; a recording without one reads 0. */
  lemma LeadingRows(rows: seq<Stamp>, i: nat, j: nat)
    requires i < |rows| && i <= j <= |rows| && forall k :: 0 <= k < j ==> rows[k].wall.None?
    requires j < |rows| ==> rows[j].wall.Some?
    ensures |Replay(rows)| == |rows| && Replay(rows)[i] == if j < |rows| then rows[j].wall.value else 0.0
  {
    var out := Readings(rows);
    forall k | 0 <= k < j ensures out[k].None? {
      SilentUntil(rows, k + 1);
    }
    SilentUntil(rows, j);
    FirstAt(out, j);
    if j < |rows| {
      assert out[j] == rows[j].wall;
      assert First(out[j..]) == rows[j].wall.value;
    }
  }

  // Maps

  ghost predicate Apart(maps: seq<MapSpan>) {
    forall i, j :: 0 <= i < j < |maps| ==>
      maps[j].offset - maps[i].offset >= 30000.0 || maps[i].offset - maps[j].offset >= 30000.0
  }

  lemma StepKeepsApart(c: Clock, e: Stamp)
    requires Apart(c.maps)
    ensures Apart(Step(c, e).maps)
  {
  }

  /** No two maps the clock has opened are within half a minute of each other in offset. */
  lemma {:induction false} MapsStayApart(rows: seq<Stamp>, n: nat)
    requires n <= |rows|
    ensures Apart(After(rows, n).maps)
  {
    if n > 0 {
      MapsStayApart(rows, n - 1);
      StepKeepsApart(After(rows, n - 1), rows[n - 1]);
    }
  }

  /** The instant a row's wall stamp puts its map's tick 0 at. */
  predicate FitsMap(m: MapSpan, e: Stamp)
    requires e.wall.Some? && e.tick.Some?
  {
    -30000.0 < m.offset - (e.wall.value - e.tick.value * 1000.0) < 30000.0
  }

  /** A fully stamped row that fits no map opens one, with its own tick first and furthest, at its wall stamp or where
      the clock already is, whichever is later, and the clock then reads that; one that fits the newest map takes it
      to the furthest tick so far and the clock to that tick's place; one that fits only earlier maps changes nothing.
      A row with a wall stamp alone takes the clock no further than that stamp, and one without changes nothing. */
  lemma RowIsPlaced(rows: seq<Stamp>, n: nat)
    requires n < |rows|
    ensures
      var c, r, e := After(rows, n), After(rows, n + 1), rows[n];
      if e.wall.None? then r == c
      else if e.tick.None? then
        && r.maps == c.maps
        && r.high == Some(if c.high.Some? && c.high.value >= e.wall.value then c.high.value else e.wall.value)
      else if forall i :: 0 <= i < |c.maps| ==> !FitsMap(c.maps[i], e) then
        var at := if c.high.Some? && c.high.value >= e.wall.value then c.high.value else e.wall.value;
        && r.maps == c.maps + [MapSpan(e.wall.value - e.tick.value * 1000.0, e.tick.value, e.tick.value, at)]
        && r.high == Some(at)
      else if FitsMap(c.maps[|c.maps| - 1], e) then
        var k := |c.maps| - 1;
        var m := c.maps[k];
        var furthest := if e.tick.value > m.maxTick then e.tick.value else m.maxTick;
        var at := m.startAt + (furthest - m.firstTick) * 1000.0;
        && r.maps == c.maps[k := m.(maxTick := furthest)]
        && r.high == Some(if c.high.Some? && c.high.value >= at then c.high.value else at)
      else r == c
  {
    var c, e := After(rows, n), rows[n];
    if e.wall.Some? && e.tick.Some? {
      var offset := OffsetOf(e.wall.value, e.tick.value);
      forall i | 0 <= i < |c.maps| ensures FitsMap(c.maps[i], e) <==> Near(c.maps[i].offset, offset) {}
      var j := Find(c.maps, offset);
      hide Find, Near, FitsMap;
      assert j < |c.maps| ==> FitsMap(c.maps[j], e);
      assert j == |c.maps| ==> forall i :: 0 <= i < |c.maps| ==> !FitsMap(c.maps[i], e);
    }
  }

  /** The row belongs to a map that another has followed. */
  predicate IsLate(c: Clock, e: Stamp) {
    e.wall.Some? && e.tick.Some? && Find(c.maps, OffsetOf(e.wall.value, e.tick.value)) < |c.maps| - 1
  }

  /** A row of an earlier map is held at the current instant: it changes nothing, and since maps are half a
      minute apart it is late exactly when its offset is near an earlier map's and not the newest's. */
  lemma LateRowsAreHeld(rows: seq<Stamp>, n: nat)
    requires n < |rows| && IsLate(After(rows, n), rows[n])
    ensures After(rows, n + 1) == After(rows, n)
    ensures n > 0 && Replay(rows)[n] == Replay(rows)[n - 1]
    ensures
      var maps := After(rows, n).maps;
      var offset := OffsetOf(rows[n].wall.value, rows[n].tick.value);
      !Near(maps[|maps| - 1].offset, offset) && exists j :: 0 <= j < |maps| - 1 && Near(maps[j].offset, offset)
  {
  }

  // Pace

  predicate FullyStamped(rows: seq<Stamp>) { forall e <- rows :: e.wall.Some? && e.tick.Some? }

  /** The clock reads where its newest map has got to. */
  predicate AtNewest(c: Clock) { c.maps != [] && c.high == Some(Reached(c.maps[|c.maps| - 1])) }

  lemma StepReadsNewest(c: Clock, e: Stamp)
    requires e.wall.Some? && e.tick.Some? && (c == START || AtNewest(c))
    ensures AtNewest(Step(c, e))
  {
    hide Find, Near, OffsetOf;
  }

  /** With both stamps on every row the clock reads where the newest map has got to, and nothing else. */
  lemma {:induction false} ClockFollowsTheNewestMap(rows: seq<Stamp>, n: nat)
    requires FullyStamped(rows) && 0 < n <= |rows|
    ensures AtNewest(After(rows, n))
  {
    hide Step, AtNewest;
    if n > 1 {
      ClockFollowsTheNewestMap(rows, n - 1);
    }
    assert rows[n - 1] in rows;
    StepReadsNewest(After(rows, n - 1), rows[n - 1]);
  }

  predicate Extends(a: Clock, b: Clock, i: nat)
    requires i < |a.maps|
  {
    && i < |b.maps|
    && b.maps[i] == a.maps[i].(maxTick := b.maps[i].maxTick)
    && a.maps[i].maxTick <= b.maps[i].maxTick
  }

  lemma StepExtends(c: Clock, e: Stamp, i: nat)
    requires i < |c.maps|
    ensures Extends(c, Step(c, e), i)
  {
    hide Find, Near, OffsetOf, Reached, Raise;
  }

  /** A map opened keeps its place and its start; only its furthest tick moves, and only forward. */
  lemma {:induction false} MapsOnlyExtend(rows: seq<Stamp>, n: nat, m: nat, i: nat)
    requires n <= m <= |rows| && i < |After(rows, n).maps|
    ensures Extends(After(rows, n), After(rows, m), i)
    decreases m
  {
    hide Step;
    if n < m {
      MapsOnlyExtend(rows, n, m - 1, i);
      StepExtends(After(rows, m - 1), rows[m - 1], i);
    }
  }

  /** Two rows with no new map between them are as far apart in the replay as the ticks reached by then. */
  lemma PacedWithinAMap(rows: seq<Stamp>, i: nat, j: nat)
    requires FullyStamped(rows) && i <= j < |rows|
    requires |After(rows, i + 1).maps| == |After(rows, j + 1).maps|
    ensures After(rows, i + 1).maps != []
    ensures
      var a, b := After(rows, i + 1).maps, After(rows, j + 1).maps;
      Replay(rows)[j] - Replay(rows)[i] == (b[|b| - 1].maxTick - a[|a| - 1].maxTick) * 1000.0
  {
    hide Step, OffsetOf, Near, Find;
    ClockFollowsTheNewestMap(rows, i + 1);
    ClockFollowsTheNewestMap(rows, j + 1);
    MapsOnlyExtend(rows, i + 1, j + 1, |After(rows, i + 1).maps| - 1);
  }

  /** The furthest tick of the first `n` rows. */
  function Furthest(rows: seq<Stamp>, n: nat): (t: real)
    requires FullyStamped(rows) && 0 < n <= |rows|
    ensures forall i :: 0 <= i < n ==> rows[i].tick.value <= t
    ensures exists i :: 0 <= i < n && rows[i].tick.value == t
  {
    if n == 1 then rows[0].tick.value else Max(Furthest(rows, n - 1), rows[n - 1].tick.value)
  }

  /** Every row's offset is near the first row's: a recording of one map. */
  ghost predicate OneMap(rows: seq<Stamp>) {
    && FullyStamped(rows)
    && forall i :: 0 <= i < |rows| ==>
         Near(OffsetOf(rows[0].wall.value, rows[0].tick.value), OffsetOf(rows[i].wall.value, rows[i].tick.value))
  }

  lemma {:induction false} OneMapState(rows: seq<Stamp>, n: nat)
    requires OneMap(rows) && 0 < n <= |rows|
    ensures After(rows, n).maps
         == [MapSpan(OffsetOf(rows[0].wall.value, rows[0].tick.value), rows[0].tick.value, Furthest(rows, n),
                     rows[0].wall.value)]
  {
    if n > 1 {
      OneMapState(rows, n - 1);
    }
    assert rows[n - 1] in rows;
  }

  /** A recording of one map plays at the pace of its ticks: each row comes as long after the first wall
      stamp as the furthest tick so far is after the first tick, however the wall stamps jitter. */
  lemma OneMapPlaysByTicks(rows: seq<Stamp>, i: nat)
    requires OneMap(rows) && i < |rows|
    ensures Replay(rows)[i] == rows[0].wall.value + (Furthest(rows, i + 1) - rows[0].tick.value) * 1000.0
  {
    hide Step, Furthest, OffsetOf;
    OneMapState(rows, i + 1);
    ClockFollowsTheNewestMap(rows, i + 1);
  }

  predicate InLine(maps: seq<MapSpan>, e: Stamp)
    requires maps != [] && e.wall.Some? && e.tick.Some?
  {
    Near(maps[0].offset, OffsetOf(e.wall.value, e.tick.value))
  }

  /** The first map keeps its offset, and a second one opens at the first row whose offset is not near it. */
  lemma StepOpens(c: Clock, e: Stamp)
    requires c.maps != [] && e.wall.Some? && e.tick.Some?
    ensures Step(c, e).maps != [] && Step(c, e).maps[0].offset == c.maps[0].offset
    ensures |Step(c, e).maps| == 1 <==> |c.maps| == 1 && InLine(c.maps, e)
  {
    hide Near, OffsetOf, Reached, Raise;
  }

  lemma OneMapGrows(rows: seq<Stamp>, n: nat)
    requires FullyStamped(rows) && 1 < n <= |rows|
    ensures
      var first, last := OffsetOf(rows[0].wall.value, rows[0].tick.value),
                         OffsetOf(rows[n - 1].wall.value, rows[n - 1].tick.value);
      OneMap(rows[..n]) <==> OneMap(rows[..n - 1]) && Near(first, last)
  {
    hide Near, OffsetOf;
    assert forall i :: 0 <= i < n - 1 ==> rows[..n - 1][i] == rows[..n][i];
    assert rows[..n][n - 1] == rows[n - 1];
  }

  /** And only then: a fully stamped recording opens a second map as soon as one offset is not near the first. */
  lemma {:induction false} OneMapOnlyThen(rows: seq<Stamp>, n: nat)
    requires FullyStamped(rows) && 0 < n <= |rows|
    ensures After(rows, n).maps != []
    ensures |After(rows, n).maps| == 1 <==> OneMap(rows[..n])
    ensures After(rows, n).maps[0].offset == OffsetOf(rows[0].wall.value, rows[0].tick.value)
  {
    assert rows[n - 1] in rows;
    if n > 1 {
      hide Step, Near, OffsetOf, OneMap;
      OneMapOnlyThen(rows, n - 1);
      StepOpens(After(rows, n - 1), rows[n - 1]);
      OneMapGrows(rows, n);
    }
  }
}
