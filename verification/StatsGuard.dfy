/** Load protection for the public stats routes: a circuit breaker with a concurrency cap, and a
    fixed-window rate limiter. Instants and durations are whole milliseconds. */
module StatsGuard {
  import opened Wrappers

  datatype GuardOptions = GuardOptions(
    failureThreshold: int,
    openMs: int,
    slowCallMs: int,
    maxConcurrent: int,
    rateLimit: int,
    rateWindowMs: int)
  {
    ghost predicate RateSensible() {
      rateLimit >= 1 && rateWindowMs >= 1
    }
  }

  datatype BreakerState = Closed | Open | HalfOpen

  datatype Breaker = Breaker(
    state: BreakerState,
    failures: int,
    openedAt: int,
    inFlight: int,
    probeInFlight: bool,
    trips: int)

  const FRESH := Breaker(Closed, 0, 0, 0, false, 0)

  /** What an admitted call remembers until it settles. */
  datatype Call = Call(state: BreakerState, started: int)

  /** Reading the state turns an expired open breaker half-open. */
  function GetState(o: GuardOptions, g: Breaker, now: int): Breaker {
    if g.state == Open && now - g.openedAt >= o.openMs
    then g.(state := HalfOpen, probeInFlight := false)
    else g
  }

  /** The synchronous first half of a guarded call: admit it or shed it. */
  function Start(o: GuardOptions, g: Breaker, now: int): (Breaker, Option<Call>) {
    var s := GetState(o, g, now);
    match s.state
    case Open => (s, None)
    case HalfOpen =>
      if s.probeInFlight then (s, None)
      else (s.(probeInFlight := true, inFlight := s.inFlight + 1), Some(Call(HalfOpen, now)))
    case Closed =>
      if s.inFlight >= o.maxConcurrent then (s, None)
      else (s.(inFlight := s.inFlight + 1), Some(Call(Closed, now)))
  }

  function RecordSuccess(g: Breaker): Breaker { g.(failures := 0, state := Closed) }

  function RecordFailure(o: GuardOptions, g: Breaker, now: int): Breaker {
    var failures := g.failures + 1;
    if g.state == HalfOpen || failures >= o.failureThreshold then
      g.(state := Open, openedAt := now, failures := 0, trips := if g.state != Open then g.trips + 1 else g.trips)
    else
      g.(failures := failures)
  }

  predicate Succeeded(o: GuardOptions, call: Call, threw: bool, now: int) {
    !threw && now - call.started < o.slowCallMs
  }

  /** The second half: the work has settled. A slow success counts as a failure. */
  function Finish(o: GuardOptions, g: Breaker, call: Call, threw: bool, now: int): Breaker {
    var judged := if Succeeded(o, call, threw, now) then RecordSuccess(g) else RecordFailure(o, g, now);
    judged.(inFlight := judged.inFlight - 1,
            probeInFlight := if call.state == HalfOpen then false else judged.probeInFlight)
  }

  // ---- Rate limiter ----

  datatype Hit = Hit(count: int, resetAt: int)

  const PRUNE_ABOVE := 5000

  function Pruned(hits: map<string, Hit>, now: int): map<string, Hit> {
    map k | k in hits && now < hits[k].resetAt :: hits[k]
  }

  /** One request against the table, before any pruning. */
  function Count(o: GuardOptions, hits: map<string, Hit>, key: string, now: int): (map<string, Hit>, bool) {
    if key !in hits || now >= hits[key].resetAt then (hits[key := Hit(1, now + o.rateWindowMs)], true)
    else if hits[key].count >= o.rateLimit then (hits, false)
    else (hits[key := hits[key].(count := hits[key].count + 1)], true)
  }

  /** The table is pruned only when a window has just been opened and it has grown too large. */
  function AllowRate(o: GuardOptions, hits: map<string, Hit>, key: string, now: int): (map<string, Hit>, bool) {
    var (counted, ok) := Count(o, hits, key, now);
    if (key !in hits || now >= hits[key].resetAt) && |counted| > PRUNE_ABOVE
    then (Pruned(counted, now), ok)
    else (counted, ok)
  }

  class StatsGuard {
    const opts: GuardOptions
    var failures: int
    var openedAt: int
    var state: BreakerState
    var inFlight: int
    var probeInFlight: bool
    var trips: int
    var hits: map<string, Hit>

    constructor (opts: GuardOptions)
      ensures this.opts == opts && View() == FRESH && hits == map[]
    {
      this.opts := opts;
      failures, openedAt, state, inFlight, probeInFlight, trips := 0, 0, Closed, 0, false, 0;
      hits := map[];
    }

    ghost function View(): Breaker
      reads this
    {
      Breaker(state, failures, openedAt, inFlight, probeInFlight, trips)
    }

    method ReadState(now: int) returns (current: BreakerState)
      modifies this
      ensures View() == GetState(opts, old(View()), now) && current == state && hits == old(hits)
    {
      if state == Open && now - openedAt >= opts.openMs {
        state := HalfOpen;
        probeInFlight := false;
      }
      current := state;
    }

    /** `run` up to the point where it awaits the work; None means the call was shed. */
    method Begin(now: int) returns (call: Option<Call>)
      modifies this
      ensures (View(), call) == Start(opts, old(View()), now) && hits == old(hits)
    {
      var current := ReadState(now);
      if current == Open {
        return None;
      }
      if current == HalfOpen {
        if probeInFlight {
          return None;
        }
        probeInFlight := true;
      } else if inFlight >= opts.maxConcurrent {
        return None;
      }
      inFlight := inFlight + 1;
      call := Some(Call(current, now));
    }

    /** `run` from the moment the work settles. */
    method Settle(call: Call, threw: bool, now: int)
      modifies this
      ensures View() == Finish(opts, old(View()), call, threw, now) && hits == old(hits)
    {
      if !threw && now - call.started < opts.slowCallMs {
        failures := 0;
        state := Closed;
      } else {
        failures := failures + 1;
        if state == HalfOpen || failures >= opts.failureThreshold {
          if state != Open {
            trips := trips + 1;
          }
          state := Open;
          openedAt := now;
          failures := 0;
        }
      }
      inFlight := inFlight - 1;
      if call.state == HalfOpen {
        probeInFlight := false;
      }
    }

    method Prune(now: int)
      modifies this`hits
      ensures hits == Pruned(old(hits), now)
    {
      var todo := hits.Keys;
      while todo != {}
        invariant todo <= hits.Keys
        invariant forall k :: k in hits <==> k in old(hits) && (k in todo || now < old(hits)[k].resetAt)
        invariant forall k :: k in hits ==> hits[k] == old(hits)[k]
        decreases todo
      {
        var k :| k in todo;
        if now >= hits[k].resetAt {
          hits := hits - {k};
        }
        todo := todo - {k};
      }
    }

    method Allow(key: string, now: int) returns (ok: bool)
      modifies this`hits
      ensures (hits, ok) == AllowRate(opts, old(hits), key, now)
    {
      if key !in hits || now >= hits[key].resetAt {
        hits := hits[key := Hit(1, now + opts.rateWindowMs)];
        if |hits| > PRUNE_ABOVE {
          Prune(now);
        }
        return true;
      }
      if hits[key].count >= opts.rateLimit {
        return false;
      }
      hits := hits[key := hits[key].(count := hits[key].count + 1)];
      ok := true;
    }
  }
}
