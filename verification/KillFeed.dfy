/** The kill reducer of the HUD store: streaks, shutdowns, bursts and the two bounded feeds, proved to be
    what the whole history since the last reset says they should be. */
module KillFeed {
  import opened Wrappers

  const FEED_CAP := 6
  const KILL_LOG_CAP := 150
  const SHUTDOWN_MIN_STREAK := 3
  const FAST_CHAIN_MAX_GAP_MS := 5000

  datatype KillType = Normal | Teamkill | Suicide

  datatype Kill = Kill(killer: string, victim: string, kind: KillType, addedAt: Option<int>)

  datatype Entry = Entry(kill: Kill, streak: int, victimStreak: int, id: int, addedAt: int)

  datatype Run = Run(n: int, firstAt: int, lastAt: int)
  datatype Burst = Burst(n: int, ms: int)
  datatype Shutdown = Shutdown(count: int, best: int)

  datatype Store = Store(
    streaks: map<string, int>, runs: map<string, Run>, chains: map<string, Burst>,
    shutdowns: map<string, Shutdown>, kills: seq<Entry>, killLog: seq<Entry>, killSeq: int)

  const EMPTY := Store(map[], map[], map[], map[], [], [], 0)

  /** `s.slice(-n)` for n > 0. */
  function Last<T>(s: seq<T>, n: nat): seq<T> { if |s| <= n then s else s[|s| - n..] }

  function StreakIn(s: Store, p: string): int { Get(s.streaks, p).GetOr(0) }

  function When(k: Kill, clock: int): int { k.addedAt.GetOr(clock) }

  function Max(a: int, b: int): int { if a < b then b else a }

  /** The streaks after `k`: the killer's goes up for a normal kill, then the victim's is cleared. */
  function BumpStreaks(s: Store, k: Kill): map<string, int> {
    (if k.kind.Normal? then s.streaks[k.killer := StreakIn(s, k.killer) + 1] else s.streaks)[k.victim := 0]
  }

  function NextRun(run: Option<Run>, killerStreak: int, at: int): Run {
    if run.Some? && killerStreak > 1 && at - run.value.lastAt <= FAST_CHAIN_MAX_GAP_MS
    then Run(run.value.n + 1, run.value.firstAt, at)
    else Run(1, at, at)
  }

  predicate Beats(b: Burst, best: Option<Burst>) {
    best.None? || b.n > best.value.n || (b.n == best.value.n && b.ms < best.value.ms)
  }

  function NextChain(chain: Option<Burst>, run: Run): Option<Burst> {
    var b := Burst(run.n, run.lastAt - run.firstAt);
    if run.n >= 2 && Beats(b, chain) then Some(b) else chain
  }

  function NextShutdown(shut: Option<Shutdown>, victimStreak: int): Option<Shutdown> {
    if victimStreak < SHUTDOWN_MIN_STREAK then shut
    else
      var prev := shut.GetOr(Shutdown(0, 0));
      Some(Shutdown(prev.count + 1, Max(prev.best, victimStreak)))
  }

  function Put<V>(m: map<string, V>, p: string, v: Option<V>): map<string, V> {
    if v.Some? then m[p := v.value] else m
  }

  function AddKill(s: Store, k: Kill, clock: int): Store {
    var victimStreak := StreakIn(s, k.victim);
    var streaks := BumpStreaks(s, k);
    var at := When(k, clock);
    var run := NextRun(Get(s.runs, k.killer), Get(streaks, k.killer).GetOr(0), at);
    var entry := Entry(k, Get(streaks, k.killer).GetOr(0), victimStreak, s.killSeq + 1, clock);
    var t := s.(streaks := streaks,
                kills := Last(s.kills, FEED_CAP - 1) + [entry],
                killLog := Last(s.killLog, KILL_LOG_CAP - 1) + [entry],
                killSeq := s.killSeq + 1);
    if !k.kind.Normal? then t
    else t.(runs := s.runs[k.killer := run],
            chains := Put(s.chains, k.killer, NextChain(Get(s.chains, k.killer), run)),
            shutdowns := Put(s.shutdowns, k.killer, NextShutdown(Get(s.shutdowns, k.killer), victimStreak)))
  }

  /** A round start clears the streaks and nothing else. */
  function ResetStreaks(s: Store): Store { s.(streaks := map[]) }

  /** A half or match reset clears everything here but the id counter. */
  function ResetHalf(s: Store): Store { EMPTY.(killSeq := s.killSeq) }

  datatype Action = Killed(kill: Kill, clock: int) | RoundStarts | HalfStarts

  function Next(s: Store, a: Action): Store {
    match a
    case Killed(k, clock) => AddKill(s, k, clock)
    case RoundStarts => ResetStreaks(s)
    case HalfStarts => ResetHalf(s)
  }

  ghost predicate Runs(states: seq<Store>, acts: seq<Action>) {
    |states| == |acts| + 1 && states[0] == EMPTY
    && forall i {:trigger acts[i]} :: 0 <= i < |acts| ==> states[i + 1] == Next(states[i], acts[i])
  }

  // What the history says

  /** The kills and round starts since the last reset. */
  function History(acts: seq<Action>): seq<Action> {
    if acts == [] then []
    else if acts[|acts| - 1].HalfStarts? then []
    else History(acts[..|acts| - 1]) + [acts[|acts| - 1]]
  }

  predicate IsKill(a: Action, p: string) { a.Killed? && a.kill.kind.Normal? && a.kill.killer == p }

  /** What ends `p`'s streak: dying, by anyone's hand, or a round start. */
  predicate Breaks(a: Action, p: string) { a.RoundStarts? || (a.Killed? && a.kill.victim == p) }

  function At(a: Action): int
    requires a.Killed?
  {
    When(a.kill, a.clock)
  }

  /** How many normal kills `p` made in h[i..j]. */
  function Kills(h: seq<Action>, p: string, i: nat, j: nat): nat
    requires j <= |h|
    decreases j
  {
    if j <= i then 0 else Kills(h, p, i, j - 1) + if IsKill(h[j - 1], p) then 1 else 0
  }

  predicate Unbroken(h: seq<Action>, p: string, i: nat, j: nat)
    requires j <= |h|
  {
    forall t :: i <= t < j ==> !Breaks(h[t], p)
  }

  /** The step after `p`'s last death or the last round start. */
  function Since(h: seq<Action>, p: string): (d: nat)
    ensures d <= |h| && (d == 0 || Breaks(h[d - 1], p)) && Unbroken(h, p, d, |h|)
  {
    if h == [] then 0
    else if Breaks(h[|h| - 1], p) then |h|
    else Since(h[..|h| - 1], p)
  }

  /** `p`'s normal kills since `p` last died or a round began. */
  function StreakOf(h: seq<Action>, p: string): nat { Kills(h, p, Since(h, p), |h|) }

  /** Two kills of `p` with none between them. */
  predicate Neighbours(h: seq<Action>, p: string, x: nat, y: nat) {
    x < y < |h| && IsKill(h[x], p) && IsKill(h[y], p) && Kills(h, p, x + 1, y) == 0
  }

  /** Neighbouring kills of `p` in h[i..j] are at most five seconds apart. */
  ghost predicate Quick(h: seq<Action>, p: string, i: nat, j: nat)
    requires j <= |h|
  {
    forall a, b :: i <= a < b < j && Neighbours(h, p, a, b) ==> At(h[b]) - At(h[a]) <= 5000
  }

  /** Every normal kill of `p` from step i to step j is one quick run without a death. */
  ghost predicate IsBurst(h: seq<Action>, p: string, i: nat, j: nat) {
    i <= j < |h| && IsKill(h[i], p) && IsKill(h[j], p) && (i < j ==> Unbroken(h, p, i, j + 1)) && Quick(h, p, i, j + 1)
  }

  function BurstAt(h: seq<Action>, p: string, i: nat, j: nat): Burst
    requires i <= j < |h| && h[i].Killed? && h[j].Killed?
  {
    Burst(Kills(h, p, i, j + 1), At(h[j]) - At(h[i]))
  }

  /** `best` is a burst of at least two kills that no other beats; there is none when no such burst exists. */
  ghost predicate IsBest(h: seq<Action>, p: string, best: Option<Burst>) {
    && (forall i: nat, j: nat {:trigger IsBurst(h, p, i, j)} ::
          IsBurst(h, p, i, j) && BurstAt(h, p, i, j).n >= 2 ==> best.Some? && !Beats(BurstAt(h, p, i, j), best))
    && (best.Some? ==>
          best.value.n >= 2
          && exists i: nat, j: nat {:trigger IsBurst(h, p, i, j)} ::
               IsBurst(h, p, i, j) && BurstAt(h, p, i, j) == best.value)
  }

  /** The open run: the longest burst that ends at step `j`, counted and timed. */
  ghost predicate RunAt(h: seq<Action>, p: string, i: nat, j: nat, run: Run) {
    && IsBurst(h, p, i, j)
    && run == Run(Kills(h, p, i, j + 1), At(h[i]), At(h[j]))
    && forall k: nat {:trigger IsBurst(h, p, k, j)} :: IsBurst(h, p, k, j) ==> i <= k
  }

  /** The open run ends at `p`'s latest kill. */
  ghost predicate IsRun(h: seq<Action>, p: string, run: Option<Run>) {
    if run.None? then Kills(h, p, 0, |h|) == 0
    else exists i: nat, j: nat :: j < |h| && RunAt(h, p, i, j, run.value) && Kills(h, p, j + 1, |h|) == 0
  }

  // Counting

  lemma {:induction false} KillsSplit(h: seq<Action>, p: string, i: nat, k: nat, j: nat)
    requires i <= k <= j <= |h|
    ensures Kills(h, p, i, j) == Kills(h, p, i, k) + Kills(h, p, k, j)
    decreases j
  {
    if k < j {
      KillsSplit(h, p, i, k, j - 1);
    }
  }

  lemma {:induction false} KillsPrefix(h: seq<Action>, a: Action, p: string, i: nat, j: nat)
    requires j <= |h|
    ensures Kills(h + [a], p, i, j) == Kills(h, p, i, j)
    decreases j
  {
    if i < j {
      KillsPrefix(h, a, p, i, j - 1);
    }
  }

  lemma NoKill(h: seq<Action>, p: string, i: nat, j: nat, t: nat)
    requires i <= t < j <= |h| && Kills(h, p, i, j) == 0
    ensures !IsKill(h[t], p)
  {
    KillsSplit(h, p, i, t, j);
    KillsSplit(h, p, t, t + 1, j);
  }

  /** A step after the burst neither makes nor unmakes it. */
  lemma BurstPrefix(h: seq<Action>, a: Action, p: string, i: nat, j: nat)
    requires j < |h|
    ensures IsBurst(h + [a], p, i, j) == IsBurst(h, p, i, j)
    ensures IsBurst(h, p, i, j) ==> BurstAt(h + [a], p, i, j) == BurstAt(h, p, i, j)
  {
    var g := h + [a];
    forall x: nat, y: nat | y <= |h| ensures Kills(g, p, x, y) == Kills(h, p, x, y) {
      KillsPrefix(h, a, p, x, y);
    }
    assert forall t :: 0 <= t < |h| ==> g[t] == h[t];
  }

  lemma SincePrefix(h: seq<Action>, a: Action, p: string)
    ensures Since(h + [a], p) == if Breaks(a, p) then |h| + 1 else Since(h, p)
  {
    assert (h + [a])[..|h|] == h;
  }

  lemma StreakStep(h: seq<Action>, a: Action, p: string)
    ensures StreakOf(h + [a], p)
         == if Breaks(a, p) then 0 else StreakOf(h, p) + if IsKill(a, p) then 1 else 0
  {
    SincePrefix(h, a, p);
    KillsPrefix(h, a, p, Since(h, p), |h|);
  }

  /** The streak counts `p`'s latest kill exactly when nothing has broken it since. */
  lemma StreakReaches(h: seq<Action>, p: string, j: nat)
    requires j < |h| && IsKill(h[j], p) && Kills(h, p, j + 1, |h|) == 0
    ensures StreakOf(h, p) > 0 <==> Unbroken(h, p, j, |h|)
  {
    var d := Since(h, p);
    if d <= j {
      KillsSplit(h, p, d, j, |h|);
      KillsSplit(h, p, j, j + 1, |h|);
    } else {
      KillsSplit(h, p, j + 1, d, |h|);
      assert Breaks(h[d - 1], p);
    }
  }

  // One step of the open run

  lemma RunStepOther(h: seq<Action>, a: Action, p: string, run: Option<Run>)
    requires IsRun(h, p, run) && !IsKill(a, p)
    ensures IsRun(h + [a], p, run)
  {
    var g := h + [a];
    if run.None? {
      KillsPrefix(h, a, p, 0, |h|);
    } else {
      var i: nat, j: nat :| j < |h| && RunAt(h, p, i, j, run.value) && Kills(h, p, j + 1, |h|) == 0;
      BurstPrefix(h, a, p, i, j);
      KillsPrefix(h, a, p, j + 1, |h|);
      forall k: nat | IsBurst(g, p, k, j) ensures i <= k {
        BurstPrefix(h, a, p, k, j);
      }
      KillsPrefix(h, a, p, i, j + 1);
      assert RunAt(g, p, i, j, run.value) && Kills(g, p, j + 1, |g|) == 0;
    }
  }

  /** What ends at a new kill: a burst that reaches back past it runs through the kill before. */
  lemma BurstBefore(h: seq<Action>, a: Action, p: string, k: nat, j: nat)
    requires j < |h| && IsKill(h[j], p) && Kills(h, p, j + 1, |h|) == 0 && k < |h|
    requires IsBurst(h + [a], p, k, |h|)
    ensures k <= j && IsBurst(h, p, k, j) && Unbroken(h, p, j, |h|) && !Breaks(a, p)
    ensures At(a) - At(h[j]) <= FAST_CHAIN_MAX_GAP_MS
  {
    var g := h + [a];
    assert g[k] == h[k] && g[j] == h[j] && g[|h|] == a;
    if j < k { NoKill(h, p, j + 1, |h|, k); }
    forall x: nat, y: nat | y <= |h| ensures Kills(g, p, x, y) == Kills(h, p, x, y) {
      KillsPrefix(h, a, p, x, y);
    }
    assert forall t :: 0 <= t < |h| ==> g[t] == h[t];
    assert !Breaks(g[|h|], p);
  }

  /** With no kill after step `j`, every kill is at or before it. */
  lemma LatestKill(h: seq<Action>, p: string, j: nat, x: nat)
    requires j < |h| && Kills(h, p, j + 1, |h|) == 0 && x < |h| && IsKill(h[x], p)
    ensures x <= j
  {
    if x > j { NoKill(h, p, j + 1, |h|, x); }
  }

  /** A kill with none between it and the end is the latest. */
  lemma NextToLatest(h: seq<Action>, p: string, j: nat, x: nat)
    requires x <= j < |h| && IsKill(h[j], p) && Kills(h, p, x + 1, |h|) == 0
    ensures x == j
  {
    if x < j { NoKill(h, p, x + 1, |h|, j); }
  }

  lemma NeighboursWere(h: seq<Action>, a: Action, p: string, j: nat, x: nat, y: nat)
    requires j < |h| && IsKill(h[j], p) && Kills(h, p, j + 1, |h|) == 0
    requires Neighbours(h + [a], p, x, y)
    ensures y < |h| ==> Neighbours(h, p, x, y) && y <= j
    ensures y == |h| ==> x == j
  {
    hide IsKill, Kills;
    assert (h + [a])[x] == h[x];
    KillsPrefix(h, a, p, x + 1, y);
    LatestKill(h, p, j, x);
    if y < |h| {
      assert (h + [a])[y] == h[y];
      LatestKill(h, p, j, y);
    } else {
      NextToLatest(h, p, j, x);
    }
  }

  /** A kill soon after the latest one keeps every two neighbours close. */
  lemma QuickGrows(h: seq<Action>, a: Action, p: string, i: nat, j: nat)
    requires j < |h| && IsKill(h[j], p) && Quick(h, p, i, j + 1) && Kills(h, p, j + 1, |h|) == 0
    requires a.Killed? && At(a) - At(h[j]) <= FAST_CHAIN_MAX_GAP_MS
    ensures Quick(h + [a], p, i, |h| + 1)
  {
    var g := h + [a];
    forall x: nat, y: nat | i <= x && Neighbours(g, p, x, y) ensures At(g[y]) - At(g[x]) <= FAST_CHAIN_MAX_GAP_MS {
      NeighboursWere(h, a, p, j, x, y);
    }
  }

  lemma BurstGrows(h: seq<Action>, a: Action, p: string, i: nat, j: nat)
    requires IsBurst(h, p, i, j) && Kills(h, p, j + 1, |h|) == 0 && Unbroken(h, p, j, |h|)
    requires IsKill(a, p) && !Breaks(a, p) && At(a) - At(h[j]) <= FAST_CHAIN_MAX_GAP_MS
    ensures IsBurst(h + [a], p, i, |h|)
  {
    hide Kills, Quick, Breaks;
    assert Unbroken(h + [a], p, i, |h| + 1);
    QuickGrows(h, a, p, i, j);
  }

  lemma LoneBurst(h: seq<Action>, p: string, j: nat)
    requires j < |h| && IsKill(h[j], p)
    ensures IsBurst(h, p, j, j) && Kills(h, p, j, j + 1) == 1
  {
  }

  lemma RunStepKill(h: seq<Action>, a: Action, p: string, run: Option<Run>)
    requires IsRun(h, p, run) && IsKill(a, p)
    ensures exists i: nat :: RunAt(h + [a], p, i, |h|, NextRun(run, StreakOf(h + [a], p), At(a)))
  {
    hide IsBurst, Quick, Unbroken;
    var g, n := h + [a], |h|;
    var next := NextRun(run, StreakOf(g, p), At(a));
    StreakStep(h, a, p);
    LoneBurst(g, p, n);
    if run.None? {
      forall k: nat | IsBurst(g, p, k, n) ensures n <= k {
        if k < n {
          BurstStarts(g, p, k, n);
          NoKill(h, p, 0, n, k);
        }
      }
      assert RunAt(g, p, n, n, next);
    } else {
      var i: nat, j: nat :| j < |h| && RunAt(h, p, i, j, run.value) && Kills(h, p, j + 1, |h|) == 0;
      BurstStarts(h, p, i, j);
      StreakReaches(h, p, j);
      var continues := !Breaks(a, p) && StreakOf(h, p) > 0 && At(a) - At(h[j]) <= FAST_CHAIN_MAX_GAP_MS;
      forall k: nat | IsBurst(g, p, k, n) && k < n ensures continues && i <= k {
        BurstBefore(h, a, p, k, j);
      }
      forall k: nat | IsBurst(g, p, k, n) ensures k <= n {
        BurstStarts(g, p, k, n);
      }
      if continues {
        BurstGrows(h, a, p, i, j);
        KillsPrefix(h, a, p, i, n);
        KillsSplit(h, p, i, j + 1, n);
        assert RunAt(g, p, i, n, next);
      } else {
        assert RunAt(g, p, n, n, next);
      }
    }
  }

  lemma BurstStarts(h: seq<Action>, p: string, i: nat, j: nat)
    requires IsBurst(h, p, i, j)
    ensures i <= j < |h| && IsKill(h[i], p) && IsKill(h[j], p)
  {
  }

  lemma KillsShrink(h: seq<Action>, p: string, i: nat, k: nat, j: nat)
    requires i < k <= j <= |h| && IsKill(h[i], p)
    ensures Kills(h, p, k, j) < Kills(h, p, i, j)
  {
    KillsSplit(h, p, i, k, j);
    KillsSplit(h, p, i, i + 1, k);
  }

  // One step of the best burst

  lemma BestStepOther(h: seq<Action>, a: Action, p: string, best: Option<Burst>)
    requires IsBest(h, p, best) && !IsKill(a, p)
    ensures IsBest(h + [a], p, best)
  {
    hide Quick, Unbroken, Kills;
    var g := h + [a];
    forall i: nat, j: nat | IsBurst(g, p, i, j) && BurstAt(g, p, i, j).n >= 2
      ensures best.Some? && !Beats(BurstAt(g, p, i, j), best)
    {
      BurstPrefix(h, a, p, i, j);
    }
    if best.Some? {
      var i: nat, j: nat :| IsBurst(h, p, i, j) && BurstAt(h, p, i, j) == best.value;
      BurstPrefix(h, a, p, i, j);
    }
  }

  lemma BestStepKill(h: seq<Action>, a: Action, p: string, best: Option<Burst>, i0: nat, run: Run)
    requires IsBest(h, p, best) && IsKill(a, p) && RunAt(h + [a], p, i0, |h|, run)
    ensures IsBest(h + [a], p, NextChain(best, run))
  {
    hide Quick, Unbroken, Kills;
    var g, n, next := h + [a], |h|, NextChain(best, run);
    var b := BurstAt(g, p, i0, n);
    forall i: nat, j: nat | IsBurst(g, p, i, j) && BurstAt(g, p, i, j).n >= 2
      ensures next.Some? && !Beats(BurstAt(g, p, i, j), next)
    {
      if j < n {
        BurstPrefix(h, a, p, i, j);
      } else if i0 < i {
        KillsShrink(g, p, i0, i, n + 1);
      }
    }
    if next == best && best.Some? {
      var i: nat, j: nat :| IsBurst(h, p, i, j) && BurstAt(h, p, i, j) == best.value;
      BurstPrefix(h, a, p, i, j);
    }
  }

  // Shutdowns

  /** The streak that step `t` cut short, when it is a kill `p` made. */
  function CutShort(h: seq<Action>, t: nat): nat
    requires t < |h| && h[t].Killed?
  {
    StreakOf(h[..t], h[t].kill.victim)
  }

  predicate IsShutdown(h: seq<Action>, p: string, t: nat)
    requires t < |h|
  {
    IsKill(h[t], p) && CutShort(h, t) >= 3
  }

  function ShutdownsOf(h: seq<Action>, p: string): set<nat> {
    set t: nat | t < |h| && IsShutdown(h, p, t)
  }

  /** How many streaks of three or more `p` has ended, and the longest of them. */
  ghost predicate AreShutdowns(h: seq<Action>, p: string, shut: Option<Shutdown>) {
    if shut.None? then ShutdownsOf(h, p) == {}
    else
      && shut.value.count == |ShutdownsOf(h, p)|
      && (forall t <- ShutdownsOf(h, p) :: CutShort(h, t) <= shut.value.best)
      && exists t <- ShutdownsOf(h, p) :: CutShort(h, t) == shut.value.best
  }

  lemma ShutdownSetStep(h: seq<Action>, a: Action, p: string)
    ensures ShutdownsOf(h + [a], p)
         == ShutdownsOf(h, p)
            + if IsKill(a, p) && StreakOf(h, a.kill.victim) >= SHUTDOWN_MIN_STREAK then {|h|} else {}
    ensures forall t <- ShutdownsOf(h, p) :: CutShort(h + [a], t) == CutShort(h, t)
    ensures a.Killed? ==> CutShort(h + [a], |h|) == StreakOf(h, a.kill.victim)
  {
    hide StreakOf;
    var g, n := h + [a], |h|;
    assert g[..n] == h;
    forall t: nat | t < n ensures g[..t] == h[..t] {}
  }

  lemma ShutdownStep(h: seq<Action>, a: Action, p: string, shut: Option<Shutdown>)
    requires AreShutdowns(h, p, shut)
    ensures AreShutdowns(h + [a], p,
              if IsKill(a, p) then NextShutdown(shut, StreakOf(h, a.kill.victim)) else shut)
  {
    hide CutShort, StreakOf, IsShutdown;
    ShutdownSetStep(h, a, p);
    if IsKill(a, p) && StreakOf(h, a.kill.victim) >= SHUTDOWN_MIN_STREAK {
      assert |h| in ShutdownsOf(h + [a], p) && |h| !in ShutdownsOf(h, p);
    }
  }

  // The reducer against the history

  /** All the store derives about `p` is what the history says. */
  ghost predicate Tracks(h: seq<Action>, p: string, s: Store) {
    && StreakIn(s, p) == StreakOf(h, p)
    && IsRun(h, p, Get(s.runs, p))
    && IsBest(h, p, Get(s.chains, p))
    && AreShutdowns(h, p, Get(s.shutdowns, p))
  }

  ghost predicate TracksAll(h: seq<Action>, s: Store) { forall p :: Tracks(h, p, s) }

  lemma StepCountsStreak(h: seq<Action>, a: Action, s: Store, p: string)
    requires StreakIn(s, p) == StreakOf(h, p) && !a.HalfStarts?
    ensures StreakIn(Next(s, a), p) == StreakOf(h + [a], p)
  {
    hide StreakOf;
    StreakStep(h, a, p);
  }

  /** The parts of the store a kill by `p` moves. */
  lemma StepMoves(h: seq<Action>, a: Action, s: Store, p: string)
    requires !a.HalfStarts? && TracksAll(h, s)
    ensures
      var t := Next(s, a);
      if IsKill(a, p) then
        var next := NextRun(Get(s.runs, p), StreakOf(h + [a], p), At(a));
        && Get(t.runs, p) == Some(next)
        && Get(t.chains, p) == NextChain(Get(s.chains, p), next)
        && Get(t.shutdowns, p) == NextShutdown(Get(s.shutdowns, p), StreakOf(h, a.kill.victim))
      else
        Get(t.runs, p) == Get(s.runs, p) && Get(t.chains, p) == Get(s.chains, p)
        && Get(t.shutdowns, p) == Get(s.shutdowns, p)
  {
    hide IsRun, IsBest, AreShutdowns, StreakOf;
    assert Tracks(h, p, s);
    StepCountsStreak(h, a, s, p);
    if IsKill(a, p) {
      assert Tracks(h, a.kill.victim, s);
    }
  }

  lemma StepTracks(h: seq<Action>, a: Action, s: Store, p: string)
    requires TracksAll(h, s) && !a.HalfStarts?
    ensures Tracks(h + [a], p, Next(s, a))
  {
    hide IsRun, IsBest, AreShutdowns, StreakOf, Next, RunAt, NextRun, NextChain;
    assert Tracks(h, p, s);
    StepMoves(h, a, s, p);
    StepCountsStreak(h, a, s, p);
    ShutdownStep(h, a, p, Get(s.shutdowns, p));
    if IsKill(a, p) {
      RunStepKill(h, a, p, Get(s.runs, p));
      var next := NextRun(Get(s.runs, p), StreakOf(h + [a], p), At(a));
      var i: nat :| RunAt(h + [a], p, i, |h|, next);
      BestStepKill(h, a, p, Get(s.chains, p), i, next);
      RunEndsNow(h + [a], p, i, next);
    } else {
      RunStepOther(h, a, p, Get(s.runs, p));
      BestStepOther(h, a, p, Get(s.chains, p));
    }
  }

  lemma RunEndsNow(h: seq<Action>, p: string, i: nat, run: Run)
    requires |h| > 0 && RunAt(h, p, i, |h| - 1, run)
    ensures IsRun(h, p, Some(run))
  {
    assert Kills(h, p, |h| - 1 + 1, |h|) == 0;
  }

  /** Over every run of the feed and for every player: the streak is the normal kills since the last death
      or round start, the chain is the best burst, the shutdowns are the streaks ended. */
  lemma {:induction false} StoreTracksHistory(states: seq<Store>, acts: seq<Action>, k: nat)
    requires Runs(states, acts) && k < |states|
    ensures TracksAll(History(acts[..k]), states[k])
    decreases k
  {
    hide Next, Tracks;
    if k == 0 {
      NothingYet(0);
    } else {
      var h, a, s := History(acts[..k - 1]), acts[k - 1], states[k - 1];
      assert acts[..k][..k - 1] == acts[..k - 1];
      assert states[k] == Next(s, a);
      if a.HalfStarts? {
        NothingYet(s.killSeq);
        ResetIs(s);
      } else {
        StoreTracksHistory(states, acts, k - 1);
        forall p ensures Tracks(h + [a], p, states[k]) {
          StepTracks(h, a, s, p);
        }
      }
    }
  }

  lemma ResetIs(s: Store)
    ensures Next(s, HalfStarts) == ResetHalf(s)
  {
  }

  lemma NothingYet(n: int)
    ensures TracksAll([], EMPTY.(killSeq := n))
  {
  }

  // The two feeds

  /** Every entry made since the last reset, oldest first. */
  function Feed(states: seq<Store>, acts: seq<Action>, k: nat): seq<Entry>
    requires k <= |acts| < |states|
  {
    if k == 0 || acts[k - 1].HalfStarts? then []
    else if acts[k - 1].Killed? then Feed(states, acts, k - 1) + Last(states[k].killLog, 1)
    else Feed(states, acts, k - 1)
  }

  lemma LastAgain<T>(s: seq<T>, x: T, m: nat)
    requires m > 0
    ensures Last(Last(s, m), m - 1) + [x] == Last(s + [x], m)
  {
  }

  ghost predicate Numbered(feed: seq<Entry>, upTo: int) {
    (forall i, j :: 0 <= i < j < |feed| ==> feed[i].id < feed[j].id) && forall e <- feed :: e.id <= upTo
  }

  lemma NumberedStep(feed: seq<Entry>, e: Entry, n: int)
    requires Numbered(feed, n) && e.id == n + 1
    ensures Numbered(feed + [e], n + 1)
  {
  }

  lemma LastOne<T>(s: seq<T>, x: T)
    ensures Last(s + [x], 1) == [x]
  {
  }

  lemma FeedStep(s: Store, k: Kill, clock: int, feed: seq<Entry>)
    requires s.kills == Last(feed, FEED_CAP) && s.killLog == Last(feed, KILL_LOG_CAP) && Numbered(feed, s.killSeq)
    ensures
      var t := AddKill(s, k, clock);
      var more := feed + Last(t.killLog, 1);
      t.kills == Last(more, FEED_CAP) && t.killLog == Last(more, KILL_LOG_CAP) && Numbered(more, t.killSeq)
  {
    hide BumpStreaks, NextRun, NextChain, NextShutdown, Put, StreakIn, Last, Numbered;
    var e := Entry(k, Get(BumpStreaks(s, k), k.killer).GetOr(0), StreakIn(s, k.victim), s.killSeq + 1, clock);
    LastAgain(feed, e, FEED_CAP);
    LastAgain(feed, e, KILL_LOG_CAP);
    LastOne(Last(s.killLog, KILL_LOG_CAP - 1), e);
    NumberedStep(feed, e, s.killSeq);
  }

  lemma LastOfLast<T>(s: seq<T>, m: nat, n: nat)
    requires m <= n
    ensures Last(Last(s, n), m) == Last(s, m)
  {
  }

  /** Both feeds are the newest entries of the whole history: six on air, 150 in the scrollback. */
  lemma {:induction false} FeedsAreSuffixes(states: seq<Store>, acts: seq<Action>, k: nat)
    requires Runs(states, acts) && k < |states|
    ensures
      var feed := Feed(states, acts, k);
      && states[k].kills == (if |feed| <= 6 then feed else feed[|feed| - 6..])
      && states[k].killLog == (if |feed| <= 150 then feed else feed[|feed| - 150..])
    ensures states[k].kills == Last(states[k].killLog, 6)
    ensures Numbered(Feed(states, acts, k), states[k].killSeq)
  {
    FeedsAreLast(states, acts, k);
    LastOfLast(Feed(states, acts, k), FEED_CAP, KILL_LOG_CAP);
    hide Feed;
  }

  lemma {:induction false} FeedsAreLast(states: seq<Store>, acts: seq<Action>, k: nat)
    requires Runs(states, acts) && k < |states|
    ensures states[k].kills == Last(Feed(states, acts, k), FEED_CAP)
    ensures states[k].killLog == Last(Feed(states, acts, k), KILL_LOG_CAP)
    ensures Numbered(Feed(states, acts, k), states[k].killSeq)
  {
    hide AddKill, Last;
    if k == 0 {
      NothingFed(0);
    } else {
      FeedsAreLast(states, acts, k - 1);
      var s, a := states[k - 1], acts[k - 1];
      assert states[k] == Next(s, a);
      match a
      case Killed(kill, clock) => FeedStep(s, kill, clock, Feed(states, acts, k - 1));
      case RoundStarts =>
      case HalfStarts => NothingFed(s.killSeq);
    }
  }

  lemma NothingFed(n: int)
    ensures Last<Entry>([], FEED_CAP) == [] && Last<Entry>([], KILL_LOG_CAP) == [] && Numbered([], n)
  {
  }

  /** How many kills the whole run has had, resets included. */
  function KillsEver(acts: seq<Action>): nat {
    if acts == [] then 0 else KillsEver(acts[..|acts| - 1]) + if acts[|acts| - 1].Killed? then 1 else 0
  }

  lemma {:induction false} IdsCountKills(states: seq<Store>, acts: seq<Action>, k: nat)
    requires Runs(states, acts) && k < |states|
    ensures states[k].killSeq == KillsEver(acts[..k])
  {
    hide BumpStreaks, NextRun, NextChain, NextShutdown;
    if k > 0 {
      IdsCountKills(states, acts, k - 1);
      assert acts[..k][..k - 1] == acts[..k - 1];
      assert states[k] == Next(states[k - 1], acts[k - 1]);
    }
  }

  /** A feed entry carries its kill, the killer's streak after it and the streak the victim lost by it, the number of
      kills so far as its id, and the instant it was taken in, whatever instant the kill itself names. */
  lemma EntryRecordsStreaks(states: seq<Store>, acts: seq<Action>, k: nat)
    requires Runs(states, acts) && k < |acts| && acts[k].Killed?
    ensures
      var e := Last(states[k + 1].killLog, 1);
      && |e| == 1 && e[0].kill == acts[k].kill
      && e[0].streak == StreakOf(History(acts[..k + 1]), acts[k].kill.killer)
      && e[0].victimStreak == StreakOf(History(acts[..k]), acts[k].kill.victim)
      && e[0].id == KillsEver(acts[..k]) + 1 && e[0].addedAt == acts[k].clock
  {
    IdsCountKills(states, acts, k);
    hide NextRun, NextChain, NextShutdown, StreakOf, IsRun, IsBest, AreShutdowns;
    StoreTracksHistory(states, acts, k);
    StoreTracksHistory(states, acts, k + 1);
    assert states[k + 1] == Next(states[k], acts[k]);
    assert Tracks(History(acts[..k]), acts[k].kill.victim, states[k]);
    assert Tracks(History(acts[..k + 1]), acts[k].kill.killer, states[k + 1]);
  }
}
