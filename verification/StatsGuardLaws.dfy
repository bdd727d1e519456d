/** What the guard promises over every interleaving of call starts and completions, and over every
    sequence of rate-limited requests. */
module StatsGuardLaws {
  import opened Wrappers
  import opened StatsGuard

  // ---- The breaker and the cap ----

  /** The guard with the calls it has admitted and not yet seen settle. */
  datatype Guarded = Guarded(breaker: Breaker, calls: seq<Call>)

  datatype Action =
    | Begin(now: int)
    | Settle(call: nat, threw: bool, now: int)
    | Peek(now: int)

  function Next(o: GuardOptions, s: Guarded, a: Action): Guarded {
    match a
    case Begin(now) =>
      var (breaker, call) := Start(o, s.breaker, now);
      Guarded(breaker, if call.Some? then s.calls + [call.value] else s.calls)
    case Settle(i, threw, now) =>
      if i >= |s.calls| then s
      else Guarded(Finish(o, s.breaker, s.calls[i], threw, now), s.calls[..i] + s.calls[i + 1..])
    case Peek(now) => s.(breaker := GetState(o, s.breaker, now))
  }

  ghost predicate Runs(o: GuardOptions, states: seq<Guarded>, acts: seq<Action>) {
    && |states| == |acts| + 1 && states[0] == Guarded(FRESH, [])
    && forall i {:trigger acts[i]} :: 0 <= i < |acts| ==> states[i + 1] == Next(o, states[i], acts[i])
  }

  /** A completion: some admitted call settles. */
  ghost predicate Completes(s: Guarded, a: Action) {
    a.Settle? && a.call < |s.calls|
  }

  /** Room is what makes the half-open path safe: a breaker opens only as a call leaves, and admits
      nothing until its single probe. */
  ghost predicate Inv(o: GuardOptions, s: Guarded) {
    && s.breaker.inFlight == |s.calls|
    && s.breaker.inFlight <= o.maxConcurrent
    && (s.breaker.state == Open ==> s.breaker.inFlight < o.maxConcurrent)
    && (s.breaker.state == HalfOpen && !s.breaker.probeInFlight ==> s.breaker.inFlight < o.maxConcurrent)
    && (o.failureThreshold >= 1 ==> 0 <= s.breaker.failures < o.failureThreshold)
  }

  lemma NextKeepsInv(o: GuardOptions, s: Guarded, a: Action)
    requires o.maxConcurrent >= 0 && Inv(o, s)
    ensures Inv(o, Next(o, s, a))
  {
  }

  /** In every interleaving the calls in flight never exceed the cap, although the half-open path
      does not test it. */
  lemma {:induction false} CapHolds(o: GuardOptions, states: seq<Guarded>, acts: seq<Action>, k: nat)
    requires o.maxConcurrent >= 0 && Runs(o, states, acts) && k < |states|
    ensures Inv(o, states[k])
  {
    hide Next;
    if k > 0 {
      hide Inv;
      CapHolds(o, states, acts, k - 1);
      NextKeepsInv(o, states[k - 1], acts[k - 1]);
    }
  }

  /** The breaker opens exactly when a completion trips it, and each opening is counted once. */
  lemma OpeningIsACompletion(o: GuardOptions, s: Guarded, a: Action)
    ensures var r := Next(o, s, a); var tripped := s.breaker.state != Open && r.breaker.state == Open;
      && (tripped ==> Completes(s, a) && !Succeeded(o, s.calls[a.call], a.threw, a.now))
      && r.breaker.trips == s.breaker.trips + if tripped then 1 else 0
  {
  }

  /** How often the breaker has opened. */
  ghost function Openings(states: seq<Guarded>, k: nat): nat
    requires k < |states|
  {
    if k == 0 then 0
    else Openings(states, k - 1)
         + if states[k - 1].breaker.state != Open && states[k].breaker.state == Open then 1 else 0
  }

  /** The trips are the openings, from none on, and a guard starts closed with nothing counted. */
  lemma {:induction false} TripsAreOpenings(o: GuardOptions, states: seq<Guarded>, acts: seq<Action>, k: nat)
    requires Runs(o, states, acts) && k < |states|
    ensures states[k].breaker.trips == Openings(states, k)
    ensures states[0].breaker.state == Closed && states[0].breaker.failures == 0 && states[0].breaker.inFlight == 0
  {
    hide Next;
    if k > 0 {
      TripsAreOpenings(o, states, acts, k - 1);
      OpeningIsACompletion(o, states[k - 1], acts[k - 1]);
      assert states[k] == Next(o, states[k - 1], acts[k - 1]);
    }
  }

  /** Half-open ends with the first completion of any call, and only then. */
  lemma HalfOpenEndsWithACompletion(o: GuardOptions, s: Guarded, a: Action)
    requires s.breaker.state == HalfOpen
    ensures Next(o, s, a).breaker.state != HalfOpen <==> Completes(s, a)
  {
  }

  /** An open breaker ends in two ways only: read once the open time is over, or closed by a call admitted
      earlier that succeeds meanwhile, however little of that time has passed. */
  lemma OpenEnds(o: GuardOptions, s: Guarded, a: Action)
    requires s.breaker.state == Open
    ensures Next(o, s, a).breaker.state != Open <==>
              (if a.Settle? then Completes(s, a) && Succeeded(o, s.calls[a.call], a.threw, a.now)
               else a.now - s.breaker.openedAt >= o.openMs)
  {
  }

  lemma OpenWaits(o: GuardOptions, s: Guarded, a: Action)
    requires s.breaker.state == Open && (a.Settle? ==> !Completes(s, a))
    requires !a.Settle? ==> a.now - s.breaker.openedAt < o.openMs
    ensures Next(o, s, a).breaker == s.breaker
    ensures a.Begin? ==> Start(o, s.breaker, a.now).1.None?
  {
  }

  /** Until then an open breaker sheds every call. */
  lemma {:induction false} OpenSheds(o: GuardOptions, states: seq<Guarded>, acts: seq<Action>, i: nat, j: nat)
    requires Runs(o, states, acts) && i <= j < |acts| && states[i].breaker.state == Open
    requires forall k :: i <= k < j && acts[k].Settle? ==> !Completes(states[k], acts[k])
    requires forall k :: i <= k <= j && !acts[k].Settle? ==> acts[k].now - states[i].breaker.openedAt < o.openMs
    ensures states[j].breaker == states[i].breaker
    ensures acts[j].Begin? ==> Start(o, states[j].breaker, acts[j].now).1.None?
  {
    hide Next, Start;
    if i < j {
      OpenSheds(o, states, acts, i, j - 1);
      OpenWaits(o, states[j - 1], acts[j - 1]);
      assert states[j] == Next(o, states[j - 1], acts[j - 1]);
    }
    if acts[j].Begin? {
      OpenWaits(o, states[j], acts[j]);
    }
  }

  ghost predicate FailedAt(o: GuardOptions, states: seq<Guarded>, acts: seq<Action>, k: nat)
    requires k < |acts| < |states|
  {
    Completes(states[k], acts[k]) && !Succeeded(o, states[k].calls[acts[k].call], acts[k].threw, acts[k].now)
  }

  ghost predicate SucceededAt(o: GuardOptions, states: seq<Guarded>, acts: seq<Action>, k: nat)
    requires k < |acts| < |states|
  {
    Completes(states[k], acts[k]) && Succeeded(o, states[k].calls[acts[k].call], acts[k].threw, acts[k].now)
  }

  /** The unsuccessful completions among steps i..j. */
  ghost function Failures(o: GuardOptions, states: seq<Guarded>, acts: seq<Action>, i: nat, j: nat): nat
    requires j <= |acts| < |states|
    decreases j
  {
    if j <= i then 0 else Failures(o, states, acts, i, j - 1) + if FailedAt(o, states, acts, j - 1) then 1 else 0
  }

  /** From step i to step j at least `n` calls failed and none succeeded. */
  ghost predicate InARow(o: GuardOptions, states: seq<Guarded>, acts: seq<Action>, i: nat, j: nat, n: int)
    requires j <= |acts| < |states|
  {
    i <= j && Failures(o, states, acts, i, j) >= n && forall k :: i <= k < j ==> !SucceededAt(o, states, acts, k)
  }

  lemma {:induction false} FailuresAreConsecutive(o: GuardOptions, states: seq<Guarded>, acts: seq<Action>, k: nat)
    returns (i: nat)
    requires Runs(o, states, acts) && k <= |acts|
    ensures InARow(o, states, acts, i, k, states[k].breaker.failures)
  {
    if k == 0 {
      i := 0;
    } else {
      assert states[k] == Next(o, states[k - 1], acts[k - 1]);
      i := FailuresAreConsecutive(o, states, acts, k - 1);
      if states[k].breaker.failures <= 0 {
        i := k;
      }
    }
  }

  /** A closed breaker trips only on as many failures in a row as the threshold, slow successes included. */
  lemma TripsAtTheThreshold(o: GuardOptions, states: seq<Guarded>, acts: seq<Action>, k: nat) returns (i: nat)
    requires Runs(o, states, acts) && k < |acts|
    requires states[k].breaker.state == Closed && states[k + 1].breaker.state == Open
    ensures InARow(o, states, acts, i, k + 1, o.failureThreshold)
  {
    assert states[k + 1] == Next(o, states[k], acts[k]);
    i := FailuresAreConsecutive(o, states, acts, k);
  }

  /** A completion that threw, or took as long as the slow limit or longer. */
  ghost predicate TookTooLong(o: GuardOptions, s: Guarded, a: Action) {
    a.Settle? && a.call < |s.calls| && (a.threw || a.now >= s.calls[a.call].started + o.slowCallMs)
  }

  /** The completions among steps i..j. */
  ghost function Completions(states: seq<Guarded>, acts: seq<Action>, i: nat, j: nat): nat
    requires j <= |acts| < |states|
    decreases j
  {
    if j <= i then 0 else Completions(states, acts, i, j - 1) + if Completes(states[j - 1], acts[j - 1]) then 1 else 0
  }

  /** A closed breaker stays closed while fewer calls than are missing to the threshold have thrown or taken too long,
      each counted; the one that makes up the threshold opens it at that instant, with one trip more. */
  lemma {:induction false} RowOfFailuresTrips(o: GuardOptions, states: seq<Guarded>, acts: seq<Action>, i: nat, j: nat)
    requires Runs(o, states, acts) && i <= j <= |acts| && states[i].breaker.state == Closed
    requires forall k :: i <= k < j && Completes(states[k], acts[k]) ==> TookTooLong(o, states[k], acts[k])
    requires j > i ==> states[i].breaker.failures + Completions(states, acts, i, j - 1) < o.failureThreshold
    ensures
      var g, r, n := states[i].breaker, states[j].breaker, states[i].breaker.failures + Completions(states, acts, i, j);
      if i < j && n >= o.failureThreshold then
        r.state == Open && r.openedAt == acts[j - 1].now && r.failures == 0 && r.trips == g.trips + 1
      else r.state == Closed && r.failures == n && r.trips == g.trips
    decreases j
  {
    hide Next, TookTooLong, Completes;
    if i < j {
      CompletionsGrow(states, acts, i, j - 1);
      RowOfFailuresTrips(o, states, acts, i, j - 1);
      assert states[j] == Next(o, states[j - 1], acts[j - 1]);
      ClosedCounts(o, states[j - 1], acts[j - 1]);
    }
  }

  lemma ClosedCounts(o: GuardOptions, s: Guarded, a: Action)
    requires s.breaker.state == Closed && (Completes(s, a) ==> TookTooLong(o, s, a))
    ensures var g, r := s.breaker, Next(o, s, a).breaker;
      if !Completes(s, a) then r.state == Closed && r.failures == g.failures && r.trips == g.trips
      else if g.failures + 1 < o.failureThreshold then
        r.state == Closed && r.failures == g.failures + 1 && r.trips == g.trips
      else r.state == Open && r.openedAt == a.now && r.failures == 0 && r.trips == g.trips + 1
  {
  }

  lemma CompletionsGrow(states: seq<Guarded>, acts: seq<Action>, i: nat, j: nat)
    requires j <= |acts| < |states|
    ensures j > i ==> Completions(states, acts, i, j - 1) <= Completions(states, acts, i, j)
  {
  }

  /** A completion that did not throw and took less than the slow limit closes the breaker, whatever its state, and
      clears the count; one that threw or took longer opens a half-open breaker at that instant, and restarts the open
      time of an open one when it makes up the threshold. */
  lemma CompletionDecides(o: GuardOptions, s: Guarded, a: Action)
    requires Completes(s, a)
    ensures var g, r := s.breaker, Next(o, s, a).breaker;
      && r.inFlight == g.inFlight - 1 && (s.calls[a.call].state == HalfOpen ==> !r.probeInFlight)
      && Next(o, s, a).calls == s.calls[..a.call] + s.calls[a.call + 1..]
      && if !TookTooLong(o, s, a) then
           !a.threw && a.now - s.calls[a.call].started < o.slowCallMs
           && r.state == Closed && r.failures == 0 && r.trips == g.trips
         else if g.state == HalfOpen then
           r.state == Open && r.openedAt == a.now && r.failures == 0 && r.trips == g.trips + 1
         else if g.state == Open then
           r.state == Open && r.trips == g.trips
           && (if g.failures + 1 >= o.failureThreshold then r.openedAt == a.now && r.failures == 0
               else r.openedAt == g.openedAt && r.failures == g.failures + 1)
         else true
  {
  }

  /** A call is let in by a closed breaker below the cap; by a half-open one, or one open for as long as the open time,
      when no probe is out, and then as the probe. It is remembered with the instant it came, and whatever is shed
      changes nothing but what reading the clock does. */
  lemma AdmittedExactlyWhen(o: GuardOptions, s: Guarded, now: int)
    ensures
      var g, r := s.breaker, Next(o, s, Begin(now));
      var expired := g.state == Open && now >= g.openedAt + o.openMs;
      var probes := expired || (g.state == HalfOpen && !g.probeInFlight);
      if g.state == Closed && g.inFlight < o.maxConcurrent then
        r == Guarded(g.(inFlight := g.inFlight + 1), s.calls + [Call(Closed, now)])
      else if probes then
        r == Guarded(g.(state := HalfOpen, probeInFlight := true, inFlight := g.inFlight + 1),
                     s.calls + [Call(HalfOpen, now)])
      else r == s
  {
  }

  /** Action `a` admits a half-open probe. */
  ghost predicate AdmitsProbe(o: GuardOptions, s: Guarded, a: Action) {
    a.Begin? && Start(o, s.breaker, a.now).1 == Some(Call(HalfOpen, a.now))
  }

  lemma {:induction false} ProbeBlocks(o: GuardOptions, states: seq<Guarded>, acts: seq<Action>, i: nat, j: nat)
    requires Runs(o, states, acts) && i < j < |states| && AdmitsProbe(o, states[i], acts[i])
    requires forall k :: i < k < j ==> !Completes(states[k], acts[k])
    ensures states[j].breaker.state == HalfOpen && states[j].breaker.probeInFlight
  {
    assert states[j] == Next(o, states[j - 1], acts[j - 1]);
    if i < j - 1 {
      ProbeBlocks(o, states, acts, i, j - 1);
    }
  }

  /** At most one probe per half-open episode: between two admitted probes some call completes. */
  lemma OneProbePerEpisode(o: GuardOptions, states: seq<Guarded>, acts: seq<Action>, i: nat, j: nat)
    requires Runs(o, states, acts) && i < j < |acts|
    requires AdmitsProbe(o, states[i], acts[i]) && AdmitsProbe(o, states[j], acts[j])
    ensures exists k :: i < k < j && Completes(states[k], acts[k])
  {
    if forall k :: i < k < j ==> !Completes(states[k], acts[k]) {
      ProbeBlocks(o, states, acts, i, j);
    }
  }

  // ---- The rate limiter ----

  datatype Request = Request(key: string, now: int)

  ghost predicate InTimeOrder(reqs: seq<Request>) {
    forall i, j :: 0 <= i < j < |reqs| ==> reqs[i].now <= reqs[j].now
  }

  /** The tables and verdicts of a request sequence, with the code's pruning or with none. */
  function Table(o: GuardOptions, reqs: seq<Request>, prune: bool): map<string, Hit> {
    if reqs == [] then map[]
    else
      var last := reqs[|reqs| - 1];
      var before := Table(o, reqs[..|reqs| - 1], prune);
      if prune then AllowRate(o, before, last.key, last.now).0 else Count(o, before, last.key, last.now).0
  }

  /** The verdict on the last request of `reqs`. */
  function Verdict(o: GuardOptions, reqs: seq<Request>, prune: bool): bool
    requires reqs != []
  {
    var last := reqs[|reqs| - 1];
    var before := Table(o, reqs[..|reqs| - 1], prune);
    if prune then AllowRate(o, before, last.key, last.now).1 else Count(o, before, last.key, last.now).1
  }

  /** Two tables nobody can tell apart from `now` on: they differ only in expired entries. */
  ghost predicate SameFrom(a: map<string, Hit>, b: map<string, Hit>, now: int) {
    forall k :: (k in a && now < a[k].resetAt) || (k in b && now < b[k].resetAt) ==>
      k in a && k in b && a[k] == b[k]
  }

  lemma CountAgrees(o: GuardOptions, a: map<string, Hit>, b: map<string, Hit>, key: string, now: int)
    requires SameFrom(a, b, now)
    ensures AllowRate(o, a, key, now).1 == Count(o, b, key, now).1
    ensures SameFrom(AllowRate(o, a, key, now).0, Count(o, b, key, now).0, now)
  {
  }

  lemma {:induction false} TablesAgree(o: GuardOptions, reqs: seq<Request>, now: int)
    requires InTimeOrder(reqs) && (reqs != [] ==> reqs[|reqs| - 1].now <= now)
    ensures SameFrom(Table(o, reqs, true), Table(o, reqs, false), now)
  {
    if reqs != [] {
      hide AllowRate, Count;
      var before, last := reqs[..|reqs| - 1], reqs[|reqs| - 1];
      TablesAgree(o, before, last.now);
      CountAgrees(o, Table(o, before, true), Table(o, before, false), last.key, last.now);
    }
  }

  /** Pruning never changes a verdict. */
  lemma PruningIsInvisible(o: GuardOptions, reqs: seq<Request>)
    requires InTimeOrder(reqs) && reqs != []
    ensures Verdict(o, reqs, true) == Verdict(o, reqs, false)
  {
    hide AllowRate, Count;
    var before, last := reqs[..|reqs| - 1], reqs[|reqs| - 1];
    TablesAgree(o, before, last.now);
    CountAgrees(o, Table(o, before, true), Table(o, before, false), last.key, last.now);
  }

  /** When the latest request came that opened a window of its key. */
  ghost function LatestOpening(o: GuardOptions, reqs: seq<Request>): Option<int> {
    if reqs == [] then None
    else
      var before, last := Table(o, reqs[..|reqs| - 1], true), reqs[|reqs| - 1];
      if last.key !in before || last.now >= before[last.key].resetAt then Some(last.now)
      else LatestOpening(o, reqs[..|reqs| - 1])
  }

  /** The table never outgrows 5000 keys but with windows that were all still running when the latest one opened. */
  lemma {:induction false} TableStaysSmall(o: GuardOptions, reqs: seq<Request>)
    requires o.RateSensible()
    ensures
      var t, at := Table(o, reqs, true), LatestOpening(o, reqs);
      |t| <= 5000 || (at.Some? && forall k :: k in t ==> at.value < t[k].resetAt)
  {
    if reqs != [] {
      var front, last := reqs[..|reqs| - 1], reqs[|reqs| - 1];
      TableStaysSmall(o, front);
      var t := Table(o, front, true);
      if last.key in t && last.now < t[last.key].resetAt {
        assert Table(o, reqs, true).Keys == t.Keys;
      }
    }
  }

  /** And nothing is forgotten before the table would hold more than 5000. */
  lemma OnlyPrunesAbove(o: GuardOptions, hits: map<string, Hit>, key: string, now: int)
    requires |hits.Keys + {key}| <= 5000
    ensures AllowRate(o, hits, key, now).0.Keys == hits.Keys + {key}
    ensures forall k :: k in hits && k != key ==> AllowRate(o, hits, key, now).0[k] == hits[k]
  {
    var t := Count(o, hits, key, now).0;
    assert t.Keys == hits.Keys + {key};
    assert |t| == |t.Keys|;
  }

  /** The instants at which requests for `key` are admitted. */
  function Admitted(o: GuardOptions, reqs: seq<Request>, key: string, prune: bool): seq<int> {
    if reqs == [] then []
    else
      var last := reqs[|reqs| - 1];
      var rest := Admitted(o, reqs[..|reqs| - 1], key, prune);
      if last.key == key && Verdict(o, reqs, prune) then rest + [last.now] else rest
  }

  lemma {:induction false} AdmittedUnpruned(o: GuardOptions, reqs: seq<Request>, key: string)
    requires InTimeOrder(reqs)
    ensures Admitted(o, reqs, key, true) == Admitted(o, reqs, key, false)
  {
    if reqs != [] {
      AdmittedUnpruned(o, reqs[..|reqs| - 1], key);
      PruningIsInvisible(o, reqs);
    }
  }

  /** The key's entry is the tail of its admissions: `count` of them, the first at the window's
      start. What came before that window came before its start, and what came more than a full
      allowance before it came more than a window earlier still. */
  ghost predicate WindowInv(o: GuardOptions, hits: map<string, Hit>, key: string, log: seq<int>) {
    if key !in hits then log == []
    else
      var start, first := hits[key].resetAt - o.rateWindowMs, |log| - hits[key].count;
      && 1 <= hits[key].count <= o.rateLimit && 0 <= first
      && (forall i :: first <= i < |log| ==> start <= log[i] < start + o.rateWindowMs)
      && (forall i :: 0 <= i < first ==> log[i] < start)
      && (forall i :: 0 <= i < first - o.rateLimit ==> log[i] + o.rateWindowMs < start)
  }

  /** Twice the limit apart means more than a window apart. */
  ghost predicate Spaced(o: GuardOptions, log: seq<int>) {
    forall i, j :: 0 <= i < j < |log| && i + 2 * o.rateLimit <= j ==> log[i] + o.rateWindowMs < log[j]
  }

  ghost predicate LogInv(o: GuardOptions, hits: map<string, Hit>, key: string, log: seq<int>, now: int) {
    && WindowInv(o, hits, key, log) && Spaced(o, log) && (forall t <- log :: t <= now)
    && (key in hits ==> hits[key].resetAt - o.rateWindowMs <= now)
  }

  lemma CountKeepsLog(o: GuardOptions, hits: map<string, Hit>, key: string, log: seq<int>, was: int, now: int)
    requires o.RateSensible() && LogInv(o, hits, key, log, was) && was <= now
    ensures var (next, ok) := Count(o, hits, key, now);
      LogInv(o, next, key, if ok then log + [now] else log, now)
  {
  }

  /** A request of another key, or the mere passing of time, leaves the key's log as it was. */
  lemma OthersKeepLog(
      o: GuardOptions, hits: map<string, Hit>, other: string, key: string, log: seq<int>, was: int, now: int)
    requires LogInv(o, hits, key, log, was) && was <= now
    ensures LogInv(o, hits, key, log, now)
    ensures other != key ==> LogInv(o, Count(o, hits, other, now).0, key, log, now)
  {
    hide Spaced;
  }

  lemma {:induction false} AdmissionsAreSpaced(o: GuardOptions, reqs: seq<Request>, key: string, now: int)
    requires o.RateSensible() && InTimeOrder(reqs) && (reqs != [] ==> reqs[|reqs| - 1].now <= now)
    ensures LogInv(o, Table(o, reqs, false), key, Admitted(o, reqs, key, false), now)
  {
    if reqs != [] {
      var before, last := reqs[..|reqs| - 1], reqs[|reqs| - 1];
      AdmissionsAreSpaced(o, before, key, last.now);
      hide Count, LogInv;
      var hits, log := Table(o, before, false), Admitted(o, before, key, false);
      if last.key == key {
        CountKeepsLog(o, hits, key, log, last.now, last.now);
      } else {
        OthersKeepLog(o, hits, last.key, key, log, last.now, last.now);
      }
      OthersKeepLog(o, Table(o, reqs, false), key, key, Admitted(o, reqs, key, false), last.now, now);
    }
  }

  /** The admissions that fall in [from, to], by position. */
  ghost function During(log: seq<int>, from: int, to: int): set<int> {
    set i | 0 <= i < |log| && from <= log[i] <= to
  }

  lemma {:induction false} RangeSize(s: set<int>, lo: int, size: nat)
    requires forall i :: i in s ==> lo <= i < lo + size
    ensures |s| <= size
  {
    if size == 0 {
      assert forall i :: i !in s;
    } else {
      RangeSize(s - {lo + size - 1}, lo, size - 1);
    }
  }

  /** Any interval of one window's length, both ends included, admits at most twice the limit. */
  lemma TwiceTheLimit(o: GuardOptions, reqs: seq<Request>, key: string, from: int)
    requires o.RateSensible() && InTimeOrder(reqs)
    ensures |During(Admitted(o, reqs, key, true), from, from + o.rateWindowMs)| <= 2 * o.rateLimit
  {
    AdmittedUnpruned(o, reqs, key);
    AdmissionsAreSpaced(o, reqs, key, if reqs == [] then 0 else reqs[|reqs| - 1].now);
    var log := Admitted(o, reqs, key, true);
    var during := During(log, from, from + o.rateWindowMs);
    if i :| i in during {
      var first := Least(during, i);
      RangeSize(during, first, 2 * o.rateLimit);
    } else {
      assert during == {};
    }
  }

  lemma {:induction false} Least(s: set<int>, some: int) returns (m: int)
    requires some in s
    ensures m in s && forall i :: i in s ==> m <= i
    decreases s
  {
    m := some;
    if i :| i in s && i < some {
      m := Least(s - {some}, i);
      assert forall j :: j in s ==> j == some || j in s - {some};
      assert i in s - {some};
    }
  }

  lemma {:induction false} RangeWithin(s: set<int>, lo: int, size: nat)
    requires forall i :: lo <= i < lo + size ==> i in s
    ensures |s| >= size
  {
    if size > 0 {
      RangeWithin(s - {lo + size - 1}, lo, size - 1);
    }
  }

  lemma RefusedWindowIsFull(o: GuardOptions, hits: map<string, Hit>, key: string, log: seq<int>, now: int)
    requires o.RateSensible() && LogInv(o, hits, key, log, now) && !Count(o, hits, key, now).1
    ensures |During(log, now - o.rateWindowMs + 1, now)| >= o.rateLimit
  {
    hide Spaced;
    assert forall i :: 0 <= i < |log| ==> log[i] in log;
    RangeWithin(During(log, now - o.rateWindowMs + 1, now), |log| - o.rateLimit, o.rateLimit);
  }

  /** And a request is refused only when the limit has been admitted for its key less than a window ago. */
  lemma RefusedOnlyWhenFull(o: GuardOptions, reqs: seq<Request>)
    requires o.RateSensible() && InTimeOrder(reqs) && reqs != [] && !Verdict(o, reqs, true)
    ensures
      var before, last := reqs[..|reqs| - 1], reqs[|reqs| - 1];
      |During(Admitted(o, before, last.key, true), last.now - o.rateWindowMs + 1, last.now)| >= o.rateLimit
  {
    var before, last := reqs[..|reqs| - 1], reqs[|reqs| - 1];
    AdmittedUnpruned(o, before, last.key);
    PruningIsInvisible(o, reqs);
    AdmissionsAreSpaced(o, before, last.key, last.now);
    hide LogInv, Count, During, Table, Admitted;
    RefusedWindowIsFull(o, Table(o, before, false), last.key, Admitted(o, before, last.key, false), last.now);
  }
}
