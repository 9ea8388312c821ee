/** The request limiter: a Redis counter whose expiry is set when it starts. */
module FixedWindow {
  import opened Base

  /** A Redis counter with an expiry; it reads as absent from `expiresAt` on. */
  datatype Counter = Absent | Counting(count: nat, expiresAt: Time)

  predicate Alive(c: Counter, now: Time) {
    c.Counting? && now < c.expiresAt
  }

  /** The value that INCR returns. */
  function Incremented(c: Counter, now: Time): nat {
    if Alive(c, now) then c.count + 1 else 1
  }

  /** INCR, and EXPIRE when the counter becomes 1. */
  function Hit(c: Counter, now: Time, window: nat): Counter {
    Counting(Incremented(c, now), if Incremented(c, now) == 1 then now + window else c.expiresAt)
  }

  predicate Admits(c: Counter, now: Time, limit: nat) {
    Incremented(c, now) <= limit
  }

  class RateLimit {
    /** Whether there is a Redis client at all. */
    const connected: bool
    const limit: nat
    const window: nat
    var counters: map<string, Counter>

    constructor (connected: bool, limit: nat, window: nat)
      ensures this.connected == connected && this.limit == limit && this.window == window && counters == map[]
    {
      this.connected, this.limit, this.window := connected, limit, window;
      counters := map[];
    }

    function Of(key: string): Counter
      reads this
    {
      if key in counters then counters[key] else Absent
    }

    /**
     One request: count it, start the window if it is the first, and let it through while the count allows. When
     Redis does not count, the request is refused; without Redis every request passes.
     */
    method Handle(key: string, now: Time, redisFails: bool) returns (admitted: bool)
      modifies this
      ensures Of(key) == if !connected || redisFails then old(Of(key)) else Hit(old(Of(key)), now, window)
      ensures forall k | k != key :: Of(k) == old(Of(k))
      ensures admitted == (!connected || (!redisFails && Admits(old(Of(key)), now, limit)))
    {
      if !connected {
        return true;
      }
      if redisFails {
        return false;
      }
      var n, expiresAt := 1, now;
      if key in counters && counters[key].Counting? && now < counters[key].expiresAt {
        n, expiresAt := counters[key].count + 1, counters[key].expiresAt;
      }
      if n == 1 {
        expiresAt := now + window;
      }
      counters := counters[key := Counting(n, expiresAt)];
      admitted := n <= limit;
    }
  }

  // ----- traces of one key -----

  ghost predicate InOrder(times: seq<Time>) {
    forall i, j | 0 <= i < j < |times| :: times[i] <= times[j]
  }

  /** The requests admitted at an instant of the half-open interval [from, from + window). */
  function Admitted(c: Counter, times: seq<Time>, limit: nat, window: nat, from: Time): nat
    decreases |times|
  {
    if times == [] then 0
    else
      (if Admits(c, times[0], limit) && from <= times[0] < from + window then 1 else 0)
      + Admitted(Hit(c, times[0], window), times[1..], limit, window, from)
  }

  function Left(c: Counter, limit: nat): nat
    requires c.Counting?
  {
    if c.count < limit then limit - c.count else 0
  }

  /** The most that an interval as long as the window can admit of one key. */
  function Most(limit: nat, window: nat): nat {
    if limit == 0 || window == 0 then 0
    else if window == 1 then limit
    else 2 * limit - 1
  }

  /**
   What the interval can still admit: only the rest of the current counter if that started inside the interval, one
   more counter if the current one started earlier but reaches into it, and otherwise two counters of which the
   first has spent at least one request before the interval.
   */
  function Room(c: Counter, limit: nat, window: nat, from: Time): int {
    if c.Counting? && c.expiresAt - window >= from then Left(c, limit)
    else if c.Counting? && c.expiresAt > from && c.count > 0 then Left(c, limit) + limit
    else Most(limit, window)
  }

  /** Counters that exist have counted at least the request that started them. */
  predicate Started(c: Counter) {
    c.Counting? ==> c.count > 0
  }

  lemma OneRequestUsesRoom(c: Counter, now: Time, limit: nat, window: nat, from: Time)
    requires Started(c) && window > 0 && now < from + window
    ensures Started(Hit(c, now, window))
    ensures (if Admits(c, now, limit) && from <= now then 1 else 0) + Room(Hit(c, now, window), limit, window, from)
      <= Room(c, limit, window, from)
  {
  }

  lemma {:induction false} NothingAdmittedAfter(c: Counter, times: seq<Time>, limit: nat, window: nat, from: Time)
    requires forall i | 0 <= i < |times| :: from + window <= times[i]
    ensures Admitted(c, times, limit, window, from) == 0
    decreases |times|
  {
    if times != [] {
      NothingAdmittedAfter(Hit(c, times[0], window), times[1..], limit, window, from);
    }
  }

  lemma {:induction false} AdmittedFitsRoom(c: Counter, times: seq<Time>, limit: nat, window: nat, from: Time)
    requires Started(c) && window > 0 && InOrder(times)
    ensures Admitted(c, times, limit, window, from) <= Room(c, limit, window, from)
    decreases |times|
  {
    if times != [] {
      if times[0] < from + window {
        OneRequestUsesRoom(c, times[0], limit, window, from);
        AdmittedFitsRoom(Hit(c, times[0], window), times[1..], limit, window, from);
      } else {
        assert forall i | 0 <= i < |times| :: times[0] <= times[i];
        NothingAdmittedAfter(c, times, limit, window, from);
      }
    }
  }

  lemma {:induction false} EmptyIntervalAdmitsNothing(c: Counter, times: seq<Time>, limit: nat, from: Time)
    ensures Admitted(c, times, limit, 0, from) == 0
    decreases |times|
  {
    if times != [] {
      EmptyIntervalAdmitsNothing(Hit(c, times[0], 0), times[1..], limit, from);
    }
  }

  /**
   Any interval as long as the window admits fewer than 2 * limit requests of a key; a window of a single tick admits
   at most the limit.
   */
  lemma WindowBound(times: seq<Time>, limit: nat, window: nat, from: Time)
    requires InOrder(times)
    ensures Admitted(Absent, times, limit, window, from) <= Most(limit, window)
  {
    if window == 0 {
      EmptyIntervalAdmitsNothing(Absent, times, limit, from);
    } else {
      AdmittedFitsRoom(Absent, times, limit, window, from);
    }
  }

  /** While one counter lives, at most `limit` requests pass, the ones it has counted included. */
  lemma {:induction false} LifetimeBound(c: Counter, times: seq<Time>, limit: nat, window: nat, from: Time)
    requires c.Counting? && c.count > 0 && forall i | 0 <= i < |times| :: times[i] < c.expiresAt
    ensures Admitted(c, times, limit, window, from) <= Left(c, limit) <= limit
    decreases |times|
  {
    if times != [] {
      LifetimeBound(Hit(c, times[0], window), times[1..], limit, window, from);
    }
  }

  // ----- the bound is reached -----

  function Repeat(t: Time, k: nat): seq<Time> {
    seq(k, i => t)
  }

  lemma {:induction false} BurstAdmitted(
    c: Counter, t: Time, k: nat, rest: seq<Time>, limit: nat, window: nat, from: Time)
    requires Alive(c, t) && c.count > 0 && c.count + k <= limit && from <= t < from + window
    ensures Admitted(c, Repeat(t, k) + rest, limit, window, from)
      == k + Admitted(Counting(c.count + k, c.expiresAt), rest, limit, window, from)
    decreases k
  {
    if k == 0 {
      assert Repeat(t, 0) + rest == rest;
    } else {
      assert (Repeat(t, k) + rest)[0] == t && (Repeat(t, k) + rest)[1..] == Repeat(t, k - 1) + rest;
      BurstAdmitted(Hit(c, t, window), t, k - 1, rest, limit, window, from);
    }
  }

  lemma FullBurst(t: Time, limit: nat, window: nat, from: Time)
    requires limit > 0 && window > 0 && from <= t < from + window
    ensures Admitted(Absent, Repeat(t, limit), limit, window, from) == limit
  {
    assert Repeat(t, limit)[1..] == Repeat(t, limit - 1) + [];
    BurstAdmitted(Counting(1, t + window), t, limit - 1, [], limit, window, from);
  }

  /** One request, a burst at the end of its window and a burst at the start of the next. */
  lemma TwoBursts(limit: nat, window: nat)
    requires limit > 0 && window > 1
    ensures var times := [0] + Repeat(window - 1, limit - 1) + Repeat(window, limit);
      InOrder(times) && Admitted(Absent, times, limit, window, 1) == 2 * limit - 1
  {
    var first, second := Repeat(window - 1, limit - 1), Repeat(window, limit);
    var times := [0] + first + second;
    assert times[1..] == first + second;
    var c := Counting(1, window);
    assert Hit(Absent, 0, window) == c;
    BurstAdmitted(c, window - 1, limit - 1, second, limit, window, 1);
    assert second == [window] + Repeat(window, limit - 1);
    assert second[1..] == Repeat(window, limit - 1) + [];
    BurstAdmitted(Counting(1, 2 * window), window, limit - 1, [], limit, window, 1);
  }

  /** For every limit and every window some trace reaches the bound exactly. */
  lemma WindowBoundIsReached(limit: nat, window: nat) returns (times: seq<Time>)
    ensures InOrder(times) && Admitted(Absent, times, limit, window, 1) == Most(limit, window)
  {
    if limit == 0 || window == 0 {
      times := [];
    } else if window == 1 {
      times := Repeat(1, limit);
      FullBurst(1, limit, window, 1);
    } else {
      times := [0] + Repeat(window - 1, limit - 1) + Repeat(window, limit);
      TwoBursts(limit, window);
    }
  }
}

/** Login failures: the counter is checked first and incremented later, with other requests in between. */
module LoginGuard {
  import opened Base
  import opened FixedWindow

  /** The failure counter of one key, and the requests that passed the check and have not finished. */
  datatype Guard = Guard(counter: Counter, inFlight: nat, clock: Time)

  datatype LoginStep = Check | Fail | Succeed | Leave

  datatype TimedLogin = LoginAt(now: Time, step: LoginStep)

  function Failures(g: Guard): nat {
    if Alive(g.counter, g.clock) then g.counter.count else 0
  }

  /** isLoginRateLimited, and then one of: increaseLoginFailCount, deletion of the key, or leaving it alone. */
  function Next(g: Guard, t: TimedLogin, limit: nat, window: nat): Guard {
    var seen := g.(clock := t.now);
    match t.step
    case Check => if Failures(seen) >= limit then seen else seen.(inFlight := g.inFlight + 1)
    case Fail => if g.inFlight == 0 then seen else Guard(Hit(g.counter, t.now, window), g.inFlight - 1, t.now)
    case Succeed => if g.inFlight == 0 then seen else Guard(Absent, g.inFlight - 1, t.now)
    case Leave => if g.inFlight == 0 then seen else seen.(inFlight := g.inFlight - 1)
  }

  function After(g: Guard, run: seq<TimedLogin>, limit: nat, window: nat): Guard
    decreases |run|
  {
    if run == [] then g else After(Next(g, run[0], limit, window), run[1..], limit, window)
  }

  /** The clock does not go back and at most `most` requests are in flight at once. */
  ghost predicate Bounded(g: Guard, run: seq<TimedLogin>, limit: nat, window: nat, most: nat)
    decreases |run|
  {
    && g.inFlight <= most
    && (run != [] ==> g.clock <= run[0].now && Bounded(Next(g, run[0], limit, window), run[1..], limit, window, most))
  }

  /** With at most K requests in flight, the failure counter never exceeds the limit by more than K - 1. */
  lemma {:induction false} FailuresBounded(g: Guard, run: seq<TimedLogin>, limit: nat, window: nat, most: nat)
    requires Bounded(g, run, limit, window, most)
    requires Failures(g) + g.inFlight <= limit + most - 1
    ensures Failures(After(g, run, limit, window)) + After(g, run, limit, window).inFlight <= limit + most - 1
    decreases |run|
  {
    if run != [] {
      FailuresBounded(Next(g, run[0], limit, window), run[1..], limit, window, most);
    }
  }

  /** One request at a time: the counter never exceeds the limit. */
  lemma SerialFailuresBounded(run: seq<TimedLogin>, limit: nat, window: nat, clock: Time)
    requires Bounded(Guard(Absent, 0, clock), run, limit, window, 1)
    ensures Failures(After(Guard(Absent, 0, clock), run, limit, window)) <= limit
  {
    FailuresBounded(Guard(Absent, 0, clock), run, limit, window, 1);
  }

  // ----- the bound is reached -----

  function Steps(step: LoginStep, k: nat): seq<TimedLogin> {
    seq(k, i => LoginAt(0, step))
  }

  lemma {:induction false} ChecksPass(g: Guard, k: nat, limit: nat, window: nat)
    requires g.clock == 0 && Failures(g) < limit
    ensures After(g, Steps(Check, k), limit, window) == g.(inFlight := g.inFlight + k)
    decreases k
  {
    if k > 0 {
      assert Steps(Check, k)[1..] == Steps(Check, k - 1);
      ChecksPass(g.(inFlight := g.inFlight + 1), k - 1, limit, window);
    }
  }

  lemma {:induction false} FailsCount(g: Guard, k: nat, limit: nat, window: nat)
    requires g.clock == 0 && g.inFlight >= k && window > 0
    ensures var g' := After(g, Steps(Fail, k), limit, window);
      Failures(g') == Failures(g) + k && g'.inFlight == g.inFlight - k && g'.clock == 0
    decreases k
  {
    if k > 0 {
      assert Steps(Fail, k)[1..] == Steps(Fail, k - 1);
      FailsCount(Next(g, LoginAt(0, Fail), limit, window), k - 1, limit, window);
    }
  }

  lemma {:induction false} AfterConcat(g: Guard, a: seq<TimedLogin>, b: seq<TimedLogin>, limit: nat, window: nat)
    ensures After(g, a + b, limit, window) == After(After(g, a, limit, window), b, limit, window)
    decreases |a|
  {
    if a == [] {
      assert a + b == b;
    } else {
      assert (a + b)[1..] == a[1..] + b;
      AfterConcat(Next(g, a[0], limit, window), a[1..], b, limit, window);
    }
  }

  /** Failed logins one after the other. */
  function InTurn(k: nat): seq<TimedLogin>
  {
    if k == 0 then [] else InTurn(k - 1) + [LoginAt(0, Check), LoginAt(0, Fail)]
  }

  lemma OneInTurn(g: Guard, limit: nat, window: nat)
    requires g.clock == 0 && g.inFlight == 0 && Failures(g) < limit && window > 0
    ensures var g' := After(g, [LoginAt(0, Check), LoginAt(0, Fail)], limit, window);
      Failures(g') == Failures(g) + 1 && g'.inFlight == 0 && g'.clock == 0
  {
    var steps := [LoginAt(0, Check), LoginAt(0, Fail)];
    assert steps[1..] == [steps[1]] && [steps[1]][1..] == [];
    var checked := Next(g, steps[0], limit, window);
    assert After(checked, [steps[1]], limit, window) == Next(checked, steps[1], limit, window);
  }

  lemma {:induction false} InTurnCounts(k: nat, limit: nat, window: nat)
    requires k <= limit && window > 0
    ensures var g := After(Guard(Absent, 0, 0), InTurn(k), limit, window);
      Failures(g) == k && g.inFlight == 0 && g.clock == 0
  {
    if k > 0 {
      InTurnCounts(k - 1, limit, window);
      AfterConcat(Guard(Absent, 0, 0), InTurn(k - 1), [LoginAt(0, Check), LoginAt(0, Fail)], limit, window);
      OneInTurn(After(Guard(Absent, 0, 0), InTurn(k - 1), limit, window), limit, window);
    }
  }

  // the same steps never have more than K requests in flight

  lemma {:induction false} BoundedConcat(
    g: Guard, a: seq<TimedLogin>, b: seq<TimedLogin>, limit: nat, window: nat, most: nat)
    requires Bounded(g, a, limit, window, most) && Bounded(After(g, a, limit, window), b, limit, window, most)
    ensures Bounded(g, a + b, limit, window, most)
    decreases |a|
  {
    if a == [] {
      assert a + b == b;
    } else {
      assert (a + b)[1..] == a[1..] + b;
      BoundedConcat(Next(g, a[0], limit, window), a[1..], b, limit, window, most);
    }
  }

  lemma {:induction false} StepsBounded(g: Guard, step: LoginStep, k: nat, limit: nat, window: nat, most: nat)
    requires g.clock == 0 && g.inFlight + (if step.Check? then k else 0) <= most
    ensures Bounded(g, Steps(step, k), limit, window, most)
    decreases k
  {
    if k > 0 {
      assert Steps(step, k)[1..] == Steps(step, k - 1);
      StepsBounded(Next(g, LoginAt(0, step), limit, window), step, k - 1, limit, window, most);
    }
  }

  lemma {:induction false} InTurnBounded(k: nat, limit: nat, window: nat, most: nat)
    requires k <= limit && window > 0 && most > 0
    ensures Bounded(Guard(Absent, 0, 0), InTurn(k), limit, window, most)
  {
    if k > 0 {
      var g, pair := After(Guard(Absent, 0, 0), InTurn(k - 1), limit, window), [LoginAt(0, Check), LoginAt(0, Fail)];
      InTurnBounded(k - 1, limit, window, most);
      InTurnCounts(k - 1, limit, window);
      var checked := Next(g, pair[0], limit, window);
      assert pair[1..] == [pair[1]] && [pair[1]][1..] == [];
      assert Bounded(Next(checked, pair[1], limit, window), [], limit, window, most);
      assert Bounded(checked, [pair[1]], limit, window, most);
      BoundedConcat(Guard(Absent, 0, 0), InTurn(k - 1), pair, limit, window, most);
    }
  }

  lemma BurstBounded(g: Guard, limit: nat, window: nat, most: nat)
    requires g.clock == 0 && g.inFlight == 0 && Failures(g) < limit
    ensures Bounded(g, Steps(Check, most) + Steps(Fail, most), limit, window, most)
  {
    StepsBounded(g, Check, most, limit, window, most);
    ChecksPass(g, most, limit, window);
    StepsBounded(g.(inFlight := most), Fail, most, limit, window, most);
    BoundedConcat(g, Steps(Check, most), Steps(Fail, most), limit, window, most);
  }

  lemma BurstOfFailures(g: Guard, limit: nat, window: nat, most: nat)
    requires g.clock == 0 && g.inFlight == 0 && Failures(g) == limit - 1 && window > 0
    ensures Failures(After(g, Steps(Check, most) + Steps(Fail, most), limit, window)) == limit + most - 1
  {
    AfterConcat(g, Steps(Check, most), Steps(Fail, most), limit, window);
    ChecksPass(g, most, limit, window);
    FailsCount(g.(inFlight := most), most, limit, window);
  }

  /**
   From no counter at all: failures one by one up to one short of the limit, then K requests that all pass the check
   before any of them fails, drive the counter to limit + K - 1.
   */
  lemma FailureBoundIsReached(limit: nat, window: nat, most: nat)
    requires limit > 0 && window > 0 && most > 0
    ensures var run := InTurn(limit - 1) + (Steps(Check, most) + Steps(Fail, most));
      && Bounded(Guard(Absent, 0, 0), run, limit, window, most)
      && Failures(After(Guard(Absent, 0, 0), run, limit, window)) == limit + most - 1
  {
    InTurnBounded(limit - 1, limit, window, most);
    InTurnCounts(limit - 1, limit, window);
    AfterConcat(Guard(Absent, 0, 0), InTurn(limit - 1), Steps(Check, most) + Steps(Fail, most), limit, window);
    var short := After(Guard(Absent, 0, 0), InTurn(limit - 1), limit, window);
    BurstOfFailures(short, limit, window, most);
    BurstBounded(short, limit, window, most);
    BoundedConcat(
      Guard(Absent, 0, 0), InTurn(limit - 1), Steps(Check, most) + Steps(Fail, most), limit, window, most);
  }

  // ----- the counter holds the current streak of failures -----

  /** Requests one after the other: each is checked and then ends in its step. */
  function Serially(requests: seq<TimedLogin>): seq<TimedLogin> {
    if requests == [] then []
    else
      var last := requests[|requests| - 1];
      Serially(requests[..|requests| - 1]) + [LoginAt(last.now, Check), last]
  }

  /** A streak is forgotten once the window since its first failure is over. */
  function Current(streak: seq<Time>, now: Time, window: nat): seq<Time> {
    if streak != [] && streak[0] + window <= now then [] else streak
  }

  /** The failures that count: those since the last success, within the window of the first; a blocked request adds none. */
  function Streak(requests: seq<TimedLogin>, limit: nat, window: nat): seq<Time> {
    if requests == [] then []
    else
      var last := requests[|requests| - 1];
      var before := Streak(requests[..|requests| - 1], limit, window);
      var current := Current(before, last.now, window);
      if |current| >= limit then before
      else if last.step.Fail? then current + [last.now]
      else if last.step.Succeed? then []
      else before
  }

  ghost predicate Holds(c: Counter, streak: seq<Time>, window: nat) {
    match c
    case Absent => streak == []
    case Counting(count, expiresAt) => streak != [] && count == |streak| && expiresAt == streak[0] + window
  }

  lemma OneRequest(g: Guard, t: TimedLogin, limit: nat, window: nat)
    requires g.inFlight == 0
    ensures After(g, [LoginAt(t.now, Check), t], limit, window)
      == Next(Next(g, LoginAt(t.now, Check), limit, window), t, limit, window)
  {
    var steps := [LoginAt(t.now, Check), t];
    var checked := Next(g, steps[0], limit, window);
    assert steps[1..] == [t];
    assert After(checked, [t], limit, window) == Next(checked, t, limit, window);
  }

  /** One request at a time, the counter holds exactly the current streak and expires a window after its first failure. */
  lemma {:induction false} CounterHoldsStreak(requests: seq<TimedLogin>, limit: nat, window: nat, clock: Time)
    requires forall i | 0 <= i < |requests| :: !requests[i].step.Check?
    ensures var g := After(Guard(Absent, 0, clock), Serially(requests), limit, window);
      g.inFlight == 0 && Holds(g.counter, Streak(requests, limit, window), window)
    decreases |requests|
  {
    if requests != [] {
      var front, last := requests[..|requests| - 1], requests[|requests| - 1];
      CounterHoldsStreak(front, limit, window, clock);
      var g := After(Guard(Absent, 0, clock), Serially(front), limit, window);
      AfterConcat(Guard(Absent, 0, clock), Serially(front), [LoginAt(last.now, Check), last], limit, window);
      OneRequest(g, last, limit, window);
    }
  }

  /** The next request is blocked exactly when the current streak has reached the limit. */
  lemma BlockedExactlyAtLimit(requests: seq<TimedLogin>, limit: nat, window: nat, clock: Time, now: Time)
    requires forall i | 0 <= i < |requests| :: !requests[i].step.Check?
    ensures var g := After(Guard(Absent, 0, clock), Serially(requests), limit, window);
      && Failures(g.(clock := now)) == |Current(Streak(requests, limit, window), now, window)|
      && (Next(g, LoginAt(now, Check), limit, window).inFlight == 0
          <==> |Current(Streak(requests, limit, window), now, window)| >= limit)
  {
    CounterHoldsStreak(requests, limit, window, clock);
  }
}

/** The resend limiter: its Lua script, in milliseconds, with the seconds that TTL rounds to. */
module ResendLimit {
  import opened Base

  const WINDOW_SECONDS := 90
  const WINDOW := 90_000
  const RESEND_LIMIT := 6

  /** A Redis key; `expiresAt` is None for a key without expiry. */
  datatype Entry = NoKey | Key(count: nat, expiresAt: Option<Time>)

  predicate Alive(e: Entry, now: Time) {
    e.Key? && (e.expiresAt.Some? ==> now < e.expiresAt.value)
  }

  /** TTL: -1 without expiry, otherwise the remaining time rounded to seconds. */
  function Ttl(expiresAt: Option<Time>, now: Time): int {
    if expiresAt.None? then -1 else (expiresAt.value - now + 500) / 1000
  }

  datatype ScriptResult = ScriptResult(entry: Entry, current: nat, ttl: int)

  function Script(e: Entry, now: Time): ScriptResult {
    var current := if Alive(e, now) then e.count + 1 else 1;
    var kept := if Alive(e, now) then e.expiresAt else None;
    var expiresAt := if current == 1 then Some(now + WINDOW) else kept;
    if Ttl(expiresAt, now) <= 0 then
      ScriptResult(Key(current, Some(now + WINDOW)), current, Ttl(Some(now + WINDOW), now))
    else
      ScriptResult(Key(current, expiresAt), current, Ttl(expiresAt, now))
  }

  datatype Decision = Pass | Cooldown(retryAfter: int) | TooMany(retryAfter: int)

  /** checkResendRateLimit and the two comparisons in the handler. */
  function Decide(e: Entry, now: Time): Decision {
    var r := Script(e, now);
    var retryAfter := if r.ttl <= 0 then WINDOW_SECONDS else r.ttl;
    if r.current > RESEND_LIMIT then TooMany(retryAfter)
    else if r.current > 1 then Cooldown(retryAfter)
    else Pass
  }

  /** The key's expiry, if it has one, lies at most a window ahead. */
  predicate WithinWindow(e: Entry, now: Time) {
    e.Key? && e.expiresAt.Some? ==> e.expiresAt.value <= now + WINDOW
  }

  /** After every run of the script the key expires within the window, and any retry_after is between 1 and 90. */
  lemma ScriptLeavesExpiry(e: Entry, now: Time)
    requires WithinWindow(e, now)
    ensures var e' := Script(e, now).entry;
      && e'.Key? && e'.count >= 1 && e'.expiresAt.Some? && now < e'.expiresAt.value <= now + WINDOW
      && Script(e, now).ttl == Ttl(e'.expiresAt, now) && 1 <= Script(e, now).ttl <= WINDOW_SECONDS
      && (!Decide(e, now).Pass? ==> 1 <= Decide(e, now).retryAfter <= WINDOW_SECONDS)
  {
  }

  /** While a counter lives its second to sixth request must wait, and every further one is too many. */
  lemma DecisionByCount(e: Entry, now: Time)
    requires WithinWindow(e, now)
    ensures var n := if Alive(e, now) then e.count + 1 else 1;
      && (Decide(e, now).Pass? <==> n == 1)
      && (Decide(e, now).Cooldown? <==> 2 <= n <= 6)
      && (Decide(e, now).TooMany? <==> 7 <= n)
      && (n > 1 && e.expiresAt.Some? && now + 500 <= e.expiresAt.value ==>
            Decide(e, now).retryAfter == (e.expiresAt.value - now + 500) / 1000)
  {
  }

  /** A request passes exactly when it starts a counter. */
  lemma PassesExactlyWhenNew(e: Entry, now: Time)
    ensures Decide(e, now) == Pass <==> !Alive(e, now) || e.count == 0
  {
  }

  function Later(e: Entry, times: seq<Time>): Entry
    decreases |times|
  {
    if times == [] then e else Later(Script(e, times[0]).entry, times[1..])
  }

  ghost predicate InOrderFrom(now: Time, times: seq<Time>)
    decreases |times|
  {
    times == [] || (now <= times[0] && InOrderFrom(times[0], times[1..]))
  }

  /** Until the key may expire, requests in between only count up and only push its expiry further out. */
  lemma {:induction false} KeyOutlastsWindow(e: Entry, since: Time, times: seq<Time>, next: Time)
    requires e.Key? && e.count >= 1 && e.expiresAt.Some? && since + WINDOW <= e.expiresAt.value
    requires InOrderFrom(since, times) && (forall i | 0 <= i < |times| :: times[i] <= next) && next < since + WINDOW
    ensures var e' := Later(e, times);
      e'.Key? && e'.count >= 1 && e'.expiresAt.Some? && since + WINDOW <= e'.expiresAt.value
    decreases |times|
  {
    if times != [] {
      KeyStepsForward(e, since, times[0]);
      OrderFromEarlier(since, times[0], times[1..]);
      KeyOutlastsWindow(Script(e, times[0]).entry, since, times[1..], next);
    }
  }

  lemma KeyStepsForward(e: Entry, since: Time, now: Time)
    requires e.Key? && e.count >= 1 && e.expiresAt.Some? && since + WINDOW <= e.expiresAt.value
    requires since <= now < since + WINDOW
    ensures var e' := Script(e, now).entry;
      e'.Key? && e'.count >= 1 && e'.expiresAt.Some? && since + WINDOW <= e'.expiresAt.value
  {
  }

  lemma OrderFromEarlier(since: Time, now: Time, times: seq<Time>)
    requires since <= now && InOrderFrom(now, times)
    ensures InOrderFrom(since, times)
  {
  }

  /** Any two requests that pass for one address are at least ninety seconds apart, whatever comes in between. */
  lemma PassesAreApart(e: Entry, first: Time, between: seq<Time>, second: Time)
    requires Decide(e, first) == Pass && InOrderFrom(first, between) && first <= second
    requires forall i | 0 <= i < |between| :: between[i] <= second
    requires Decide(Later(Script(e, first).entry, between), second) == Pass
    ensures second >= first + 90_000
  {
    var e' := Script(e, first).entry;
    assert e'.expiresAt == Some(first + WINDOW);
    if second < first + WINDOW {
      KeyOutlastsWindow(e', first, between, second);
      PassesExactlyWhenNew(Later(e', between), second);
    }
  }
}
