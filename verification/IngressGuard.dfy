/** Inbound federation rate limiting (backend/federation-health.ts, lines 43-53 and 79-131). */
module IngressGuard {

  datatype Limits = Limits(windowMs: nat, maxAttempts: nat, blockMs: nat)

  datatype KeyState = KeyState(attempts: seq<int>, blockedUntil: int)

  datatype Decision = Decision(allowed: bool, tripped: bool, attempts: nat, retryAfterMs: int)

  const NO_ATTEMPTS := KeyState([], 0)

  function Since(attempts: seq<int>, cutoff: int): (r: seq<int>)
    ensures |r| <= |attempts|
  {
    if attempts == [] then []
    else
      var front, last := Since(attempts[..|attempts| - 1], cutoff), attempts[|attempts| - 1];
      if last >= cutoff then front + [last] else front
  }

  /** One attempt on one key: the new state of the key and the answer. */
  function Decide(limits: Limits, state: KeyState, now: int): (KeyState, Decision) {
    if state.blockedUntil > now then
      (state, Decision(false, false, |state.attempts|, state.blockedUntil - now))
    else
      var kept := if state.blockedUntil > 0 then [] else state.attempts;
      var attempts := Since(kept, now - limits.windowMs) + [now];
      if |attempts| > limits.maxAttempts then
        (KeyState(attempts, now + limits.blockMs), Decision(false, true, |attempts|, limits.blockMs))
      else
        (KeyState(attempts, if state.blockedUntil > 0 then 0 else state.blockedUntil), Decision(true, false, |attempts|, 0))
  }

  function StateOf(states: map<string, KeyState>, key: string): KeyState {
    if key in states then states[key] else NO_ATTEMPTS
  }

  class FederationIngressGuard {
    const limits: Limits
    var states: map<string, KeyState>

    constructor (limits: Limits)
      ensures this.limits == limits && states == map[]
    {
      this.limits := limits;
      states := map[];
    }

    method RegisterAttempt(key: string, now: int) returns (decision: Decision)
      modifies this`states
      ensures (StateOf(states, key), decision) == Decide(limits, StateOf(old(states), key), now)
      ensures forall other | other != key :: StateOf(states, other) == StateOf(old(states), other)
    {
      var state := if key in states then states[key] else NO_ATTEMPTS;
      if state.blockedUntil > now {
        return Decision(false, false, |state.attempts|, state.blockedUntil - now);
      }
      if state.blockedUntil > 0 {
        state := KeyState([], 0);
      }
      var cutoff := now - limits.windowMs;
      var recent: seq<int> := [];
      for i := 0 to |state.attempts|
        invariant recent == Since(state.attempts[..i], cutoff)
      {
        assert state.attempts[..i + 1][..i] == state.attempts[..i];
        if state.attempts[i] >= cutoff {
          recent := recent + [state.attempts[i]];
        }
      }
      assert state.attempts[..|state.attempts|] == state.attempts;
      state := state.(attempts := recent + [now]);
      if |state.attempts| > limits.maxAttempts {
        state := state.(blockedUntil := now + limits.blockMs);
        states := states[key := state];
        return Decision(false, true, |state.attempts|, limits.blockMs);
      }
      states := states[key := state];
      return Decision(true, false, |state.attempts|, 0);
    }
  }

  // --------------------------------------------------------------- whole runs

  /** State of a key after attempts at the given instants. */
  function After(limits: Limits, times: seq<int>): KeyState {
    if times == [] then NO_ATTEMPTS
    else Decide(limits, After(limits, times[..|times| - 1]), times[|times| - 1]).0
  }

  /** Answer to the `i`-th attempt. */
  function Answer(limits: Limits, times: seq<int>, i: nat): Decision
    requires i < |times|
  {
    Decide(limits, After(limits, times[..i]), times[i]).1
  }

  /** Number of allowed attempts at instants in `(lo, hi]`. */
  function AllowedWithin(limits: Limits, times: seq<int>, lo: int, hi: int): nat {
    if times == [] then 0
    else
      var n := |times| - 1;
      AllowedWithin(limits, times[..n], lo, hi) + if Answer(limits, times, n).allowed && lo < times[n] <= hi then 1 else 0
  }

  /** One more attempt. */
  lemma Append(limits: Limits, times: seq<int>, now: int, lo: int, hi: int)
    ensures After(limits, times + [now]) == Decide(limits, After(limits, times), now).0
    ensures AllowedWithin(limits, times + [now], lo, hi) ==
            AllowedWithin(limits, times, lo, hi)
            + if Decide(limits, After(limits, times), now).1.allowed && lo < now <= hi then 1 else 0
  {
    assert (times + [now])[..|times|] == times;
  }

  ghost predicate Clock(times: seq<int>) {
    && (forall i | 0 <= i < |times| :: times[i] >= 0)
    && (forall i, j | 0 <= i < j < |times| :: times[i] <= times[j])
  }

  type Call = (string, int)

  /** States of all keys after a sequence of calls on any keys. */
  function AfterCalls(limits: Limits, calls: seq<Call>): map<string, KeyState> {
    if calls == [] then map[]
    else
      var before, last := AfterCalls(limits, calls[..|calls| - 1]), calls[|calls| - 1];
      before[last.0 := Decide(limits, StateOf(before, last.0), last.1).0]
  }

  function TimesOf(key: string, calls: seq<Call>): seq<int> {
    if calls == [] then []
    else
      var front, last := TimesOf(key, calls[..|calls| - 1]), calls[|calls| - 1];
      if last.0 == key then front + [last.1] else front
  }

  /** Keys do not influence each other: a key's state depends on its own attempts only. */
  lemma {:induction false} KeysAreIndependent(limits: Limits, calls: seq<Call>, key: string)
    ensures StateOf(AfterCalls(limits, calls), key) == After(limits, TimesOf(key, calls))
  {
    if calls == [] {
    } else {
      var front, last := calls[..|calls| - 1], calls[|calls| - 1];
      KeysAreIndependent(limits, front, key);
      var times := TimesOf(key, front);
      assert (times + [last.1])[..|times|] == times;
    }
  }

  // ------------------------------------------------------- the window guarantee

  function CountAbove(attempts: seq<int>, lo: int): (n: nat)
    ensures n <= |attempts|
  {
    if attempts == [] then 0
    else CountAbove(attempts[..|attempts| - 1], lo) + if attempts[|attempts| - 1] > lo then 1 else 0
  }

  lemma {:induction false} CountAboveSince(attempts: seq<int>, cutoff: int, lo: int)
    requires lo >= cutoff - 1
    ensures CountAbove(Since(attempts, cutoff), lo) == CountAbove(attempts, lo)
  {
    if attempts == [] {
    } else {
      var front, last := attempts[..|attempts| - 1], attempts[|attempts| - 1];
      CountAboveSince(front, cutoff, lo);
      var kept := Since(front, cutoff);
      assert (kept + [last])[..|kept|] == kept;
    }
  }

  lemma {:induction false} NothingBeyondTheClock(limits: Limits, times: seq<int>, lo: int, hi: int)
    requires forall i | 0 <= i < |times| :: times[i] <= lo
    ensures AllowedWithin(limits, times, lo, hi) == 0
  {
    if times == [] {
    } else {
      NothingBeyondTheClock(limits, times[..|times| - 1], lo, hi);
    }
  }

  ghost predicate NothingWithin(limits: Limits, times: seq<int>, lo: int, hi: int) {
    AllowedWithin(limits, times, lo, hi) == 0
  }

  ghost predicate NothingAfter(limits: Limits, times: seq<int>, instant: int) {
    forall lo, hi | lo >= instant :: NothingWithin(limits, times, lo, hi)
  }

  ghost predicate Covers(limits: Limits, times: seq<int>, attempts: seq<int>, lo: int, hi: int) {
    AllowedWithin(limits, times, lo, hi) <= CountAbove(attempts, lo)
  }

  /** From `since` on, `attempts` accounts for every allowed attempt. */
  ghost predicate CoveredBy(limits: Limits, times: seq<int>, since: int, attempts: seq<int>) {
    forall lo, hi | lo >= since :: Covers(limits, times, attempts, lo, hi)
  }

  /** While a key is blocked nothing was allowed after the trip; otherwise the attempt list
      accounts for every attempt allowed in the current window. */
  ghost predicate Accounted(limits: Limits, times: seq<int>, state: KeyState) {
    if state.blockedUntil > 0 then
      NothingAfter(limits, times, state.blockedUntil - limits.blockMs)
    else
      && state.blockedUntil == 0 && |state.attempts| <= limits.maxAttempts
      && CoveredBy(limits, times, if times == [] then 0 else times[|times| - 1] - limits.windowMs, state.attempts)
  }

  lemma CountAboveAppend(attempts: seq<int>, now: int, lo: int)
    ensures CountAbove(attempts + [now], lo) == CountAbove(attempts, lo) + if now > lo then 1 else 0
  {
    assert (attempts + [now])[..|attempts|] == attempts;
  }

  lemma AllowedAppend(limits: Limits, front: seq<int>, now: int, lo: int, hi: int)
    ensures AllowedWithin(limits, front + [now], lo, hi) <= AllowedWithin(limits, front, lo, hi) + if now > lo then 1 else 0
  {
    Append(limits, front, now, lo, hi);
  }

  /** Dropping attempts older than the window and adding the new one still accounts for the window. */
  lemma WindowSlides(limits: Limits, front: seq<int>, attempts: seq<int>, cutoff: int, now: int, lo: int, hi: int)
    requires Covers(limits, front, attempts, lo, hi) && lo >= cutoff
    ensures Covers(limits, front + [now], Since(attempts, cutoff) + [now], lo, hi)
  {
    AllowedAppend(limits, front, now, lo, hi);
    CountAboveSince(attempts, cutoff, lo);
    CountAboveAppend(Since(attempts, cutoff), now, lo);
  }

  /** The account of the window that ends with the next attempt. */
  lemma WindowMoves(limits: Limits, front: seq<int>, since: int, attempts: seq<int>, now: int)
    requires CoveredBy(limits, front, since, attempts) && since <= now - limits.windowMs
    ensures CoveredBy(limits, front + [now], now - limits.windowMs, Since(attempts, now - limits.windowMs) + [now])
  {
    var cutoff := now - limits.windowMs;
    forall lo, hi | lo >= cutoff ensures Covers(limits, front + [now], Since(attempts, cutoff) + [now], lo, hi) {
      WindowSlides(limits, front, attempts, cutoff, now, lo, hi);
    }
  }

  lemma NoneAfterNow(limits: Limits, times: seq<int>, now: int)
    requires Clock(times) && times != [] && now == times[|times| - 1]
    ensures NothingAfter(limits, times, now)
  {
    forall lo, hi | lo >= now ensures NothingWithin(limits, times, lo, hi) {
      NothingBeyondTheClock(limits, times, lo, hi);
    }
  }

  lemma NothingCovers(limits: Limits, times: seq<int>, lo: int, hi: int)
    requires NothingWithin(limits, times, lo, hi)
    ensures Covers(limits, times, [], lo, hi)
  {
  }

  lemma NothingIsCovered(limits: Limits, times: seq<int>, instant: int, since: int)
    requires NothingAfter(limits, times, instant) && instant <= since
    ensures CoveredBy(limits, times, since, [])
  {
    forall lo, hi | lo >= since ensures Covers(limits, times, [], lo, hi) {
      NothingCovers(limits, times, lo, hi);
    }
  }

  /** Before the first attempt on a key. */
  lemma AnyCoversNone(limits: Limits, since: int, attempts: seq<int>)
    ensures CoveredBy(limits, [], since, attempts)
  {
  }

  lemma DecideAfterBlock(limits: Limits, before: KeyState, now: int)
    requires 0 < before.blockedUntil <= now
    ensures Decide(limits, before, now).0 == KeyState([now], if limits.maxAttempts == 0 then now + limits.blockMs else 0)
  {
  }

  /** The attempt that ends a block starts a new account. */
  lemma AccountedAfterBlock(limits: Limits, front: seq<int>, now: int, before: KeyState)
    requires Clock(front + [now]) && 0 < limits.windowMs <= limits.blockMs
    requires Accounted(limits, front, before) && 0 < before.blockedUntil <= now
    ensures Accounted(limits, front + [now], Decide(limits, before, now).0)
  {
    assert (front + [now])[|front|] == now;
    NoneAfterNow(limits, front + [now], now);
    NothingIsCovered(limits, front, before.blockedUntil - limits.blockMs, now - limits.windowMs);
    WindowMoves(limits, front, now - limits.windowMs, [], now);
    DecideAfterBlock(limits, before, now);
    assert Since([], now - limits.windowMs) + [now] == [now];
  }

  lemma ClockGoesOn(front: seq<int>, now: int)
    requires Clock(front + [now]) && front != []
    ensures front[|front| - 1] <= now
  {
    assert (front + [now])[|front| - 1] <= (front + [now])[|front|];
  }

  lemma OpenCovers(limits: Limits, front: seq<int>, now: int, attempts: seq<int>)
    requires Clock(front + [now])
    requires CoveredBy(limits, front, if front == [] then 0 else front[|front| - 1] - limits.windowMs, attempts)
    ensures CoveredBy(limits, front + [now], now - limits.windowMs, Since(attempts, now - limits.windowMs) + [now])
  {
    if front == [] {
      AnyCoversNone(limits, now - limits.windowMs, attempts);
      WindowMoves(limits, front, now - limits.windowMs, attempts, now);
    } else {
      ClockGoesOn(front, now);
      WindowMoves(limits, front, front[|front| - 1] - limits.windowMs, attempts, now);
    }
  }

  lemma DecideOpen(limits: Limits, before: KeyState, now: int)
    requires before.blockedUntil == 0 <= now
    ensures var attempts := Since(before.attempts, now - limits.windowMs) + [now];
            Decide(limits, before, now).0 ==
            KeyState(attempts, if |attempts| > limits.maxAttempts then now + limits.blockMs else 0)
  {
  }

  lemma AccountedOpen(limits: Limits, front: seq<int>, now: int, before: KeyState)
    requires Clock(front + [now]) && 0 < limits.windowMs <= limits.blockMs
    requires Accounted(limits, front, before) && before.blockedUntil == 0
    ensures Accounted(limits, front + [now], Decide(limits, before, now).0)
  {
    assert (front + [now])[|front|] == now;
    NoneAfterNow(limits, front + [now], now);
    OpenCovers(limits, front, now, before.attempts);
    DecideOpen(limits, before, now);
  }

  lemma RefusedAddsNothing(limits: Limits, front: seq<int>, now: int, lo: int, hi: int)
    requires NothingWithin(limits, front, lo, hi) && !Decide(limits, After(limits, front), now).1.allowed
    ensures NothingWithin(limits, front + [now], lo, hi)
  {
    Append(limits, front, now, lo, hi);
  }

  /** An attempt during a block changes nothing. */
  lemma AccountedBlocked(limits: Limits, front: seq<int>, now: int, before: KeyState)
    requires before == After(limits, front) && Accounted(limits, front, before) && before.blockedUntil > now >= 0
    ensures Accounted(limits, front + [now], Decide(limits, before, now).0)
  {
    var trip := before.blockedUntil - limits.blockMs;
    assert Decide(limits, before, now).0 == before;
    forall lo, hi | lo >= trip ensures NothingWithin(limits, front + [now], lo, hi) {
      RefusedAddsNothing(limits, front, now, lo, hi);
    }
  }

  lemma {:induction false} AlwaysAccounted(limits: Limits, times: seq<int>)
    requires Clock(times) && 0 < limits.windowMs <= limits.blockMs
    ensures Accounted(limits, times, After(limits, times))
  {
    if times == [] {
      AnyCoversNone(limits, 0, []);
    } else {
      var front, now := times[..|times| - 1], times[|times| - 1];
      assert times == front + [now];
      AlwaysAccounted(limits, front);
      var before := After(limits, front);
      if before.blockedUntil == 0 {
        AccountedOpen(limits, front, now, before);
      } else if before.blockedUntil <= now {
        AccountedAfterBlock(limits, front, now, before);
      } else {
        AccountedBlocked(limits, front, now, before);
      }
    }
  }

  /** Number of attempts allowed in the half-open window of length `windowMs` ending at `t`. */
  function WindowLoad(limits: Limits, times: seq<int>, t: int): nat {
    AllowedWithin(limits, times, t - limits.windowMs, t)
  }

  lemma OpenLoadIsBounded(limits: Limits, times: seq<int>, t: int, state: KeyState)
    requires times != [] && times[|times| - 1] <= t && Accounted(limits, times, state) && state.blockedUntil == 0
    ensures WindowLoad(limits, times, t) <= limits.maxAttempts
  {
    assert Covers(limits, times, state.attempts, t - limits.windowMs, t);
  }

  lemma AllowedLeavesOpen(limits: Limits, times: seq<int>)
    requires times != [] && Answer(limits, times, |times| - 1).allowed
    ensures After(limits, times).blockedUntil <= 0
  {
  }

  /** At most `maxAttempts` attempts are allowed in any window `(t - windowMs, t]`. */
  lemma {:induction false} WindowIsBounded(limits: Limits, times: seq<int>, t: int)
    requires Clock(times) && limits.windowMs <= limits.blockMs
    ensures WindowLoad(limits, times, t) <= limits.maxAttempts
  {
    if times == [] {
    } else {
      var n := |times| - 1;
      WindowIsBounded(limits, times[..n], t);
      if Answer(limits, times, n).allowed && t - limits.windowMs < times[n] <= t {
        AlwaysAccounted(limits, times);
        AllowedLeavesOpen(limits, times);
        OpenLoadIsBounded(limits, times, t, After(limits, times));
      }
    }
  }

  ghost predicate WindowBound(limits: Limits) {
    forall times, t: int | Clock(times) :: WindowLoad(limits, times, t) <= limits.maxAttempts
  }

  function Burst(n: nat): (r: seq<int>)
    ensures |r| == n && forall i | 0 <= i < n :: r[i] == 1
  {
    if n == 0 then [] else Burst(n - 1) + [1]
  }

  /** Simultaneous attempts are all recorded, and all allowed until the limit is reached. */
  lemma {:induction false} BurstState(limits: Limits, n: nat, lo: int)
    requires n <= limits.maxAttempts && lo < 1
    ensures After(limits, Burst(n)) == KeyState(Burst(n), 0)
    ensures AllowedWithin(limits, Burst(n), lo, 1 + limits.blockMs) == n
  {
    if n == 0 {
    } else {
      BurstState(limits, n - 1, lo);
      BurstStep(limits, n - 1, KeyState(Burst(n - 1), 0));
      Append(limits, Burst(n - 1), 1, lo, 1 + limits.blockMs);
    }
  }

  lemma BurstStep(limits: Limits, n: nat, state: KeyState)
    requires state == KeyState(Burst(n), 0)
    ensures Decide(limits, state, 1) ==
            if n < limits.maxAttempts then (KeyState(Burst(n + 1), 0), Decision(true, false, n + 1, 0))
            else (KeyState(Burst(n + 1), 1 + limits.blockMs), Decision(false, true, n + 1, limits.blockMs))
  {
    SinceKeepsAll(Burst(n), 1 - limits.windowMs);
  }

  lemma {:induction false} SinceKeepsAll(attempts: seq<int>, cutoff: int)
    requires forall i | 0 <= i < |attempts| :: attempts[i] >= cutoff
    ensures Since(attempts, cutoff) == attempts
  {
    if attempts == [] {
    } else {
      SinceKeepsAll(attempts[..|attempts| - 1], cutoff);
    }
  }

  lemma BurstTrips(limits: Limits, lo: int)
    requires lo < 1
    ensures After(limits, Burst(limits.maxAttempts + 1)) == KeyState(Burst(limits.maxAttempts + 1), 1 + limits.blockMs)
    ensures AllowedWithin(limits, Burst(limits.maxAttempts + 1), lo, 1 + limits.blockMs) == limits.maxAttempts
  {
    var n := limits.maxAttempts;
    BurstState(limits, n, lo);
    BurstStep(limits, n, KeyState(Burst(n), 0));
    Append(limits, Burst(n), 1, lo, 1 + limits.blockMs);
  }

  lemma FirstAfterBlock(limits: Limits, state: KeyState, now: int)
    requires limits.maxAttempts >= 1 && 0 < state.blockedUntil <= now
    ensures Decide(limits, state, now).1.allowed
  {
  }

  lemma BurstThenClock(n: nat, t: int)
    requires t >= 1
    ensures Clock(Burst(n) + [t])
  {
  }

  lemma OneMoreAllowed(limits: Limits, times: seq<int>, now: int, lo: int, load: nat)
    requires Decide(limits, After(limits, times), now).1.allowed && lo < now
    requires AllowedWithin(limits, times, lo, now) == load
    ensures AllowedWithin(limits, times + [now], lo, now) == load + 1
  {
    Append(limits, times, now, lo, now);
  }

  /** With a block shorter than the window, a full burst, the tripping attempt and one attempt
      right after the block put `maxAttempts + 1` allowed attempts into a single window. */
  lemma ShortBlockLeaks(limits: Limits, times: seq<int>, t: int)
    requires limits.maxAttempts >= 1 && limits.blockMs < limits.windowMs
    requires t == 1 + limits.blockMs && times == Burst(limits.maxAttempts + 1) + [t]
    ensures Clock(times) && WindowLoad(limits, times, t) == limits.maxAttempts + 1
  {
    var n := limits.maxAttempts + 1;
    BurstTrips(limits, t - limits.windowMs);
    BurstThenClock(n, t);
    FirstAfterBlock(limits, KeyState(Burst(n), t), t);
    OneMoreAllowed(limits, Burst(n), t, t - limits.windowMs, limits.maxAttempts);
  }

  /** A guard that allows no attempt refuses them all. */
  lemma {:induction false} NothingAllowed(limits: Limits, times: seq<int>, lo: int, hi: int)
    requires limits.maxAttempts == 0
    ensures AllowedWithin(limits, times, lo, hi) == 0
  {
    if times == [] {
    } else {
      NothingAllowed(limits, times[..|times| - 1], lo, hi);
    }
  }

  /** The window guarantee holds for every run exactly when a block lasts at least one window, or
      nothing is allowed anyway. */
  lemma WindowBoundExactly(limits: Limits)
    ensures WindowBound(limits) <==> limits.maxAttempts == 0 || limits.windowMs <= limits.blockMs
  {
    if limits.maxAttempts == 0 || limits.windowMs <= limits.blockMs {
      forall times, t: int | Clock(times)
        ensures WindowLoad(limits, times, t) <= limits.maxAttempts
      {
        if limits.maxAttempts == 0 {
          NothingAllowed(limits, times, t - limits.windowMs, t);
        } else {
          WindowIsBounded(limits, times, t);
        }
      }
    } else {
      var t := 1 + limits.blockMs;
      ShortBlockLeaks(limits, Burst(limits.maxAttempts + 1) + [t], t);
    }
  }

  // ------------------------------------------------------------ trips and blocks

  /** Until a block ends, every attempt is refused without a new trip and told the remaining time. */
  lemma {:induction false} RefusedDuringBlock(limits: Limits, times: seq<int>, i: nat, j: nat)
    requires Clock(times) && i < j < |times|
    requires Answer(limits, times, i).tripped && times[j] < times[i] + limits.blockMs
    ensures After(limits, times[..j]) == After(limits, times[..i + 1])
    ensures !Answer(limits, times, j).allowed && !Answer(limits, times, j).tripped
    ensures Answer(limits, times, j).retryAfterMs == times[i] + limits.blockMs - times[j]
    decreases j
  {
    assert times[..i + 1][..i] == times[..i];
    if j == i + 1 {
    } else {
      RefusedDuringBlock(limits, times, i, j - 1);
      assert times[..j][..j - 1] == times[..j - 1];
    }
  }

  /** Two trips on one key are at least `blockMs` apart, so each block is reported once. */
  lemma TripsAreApart(limits: Limits, times: seq<int>, i: nat, j: nat)
    requires Clock(times) && i < j < |times|
    requires Answer(limits, times, i).tripped && Answer(limits, times, j).tripped
    ensures times[j] - times[i] >= limits.blockMs
  {
    if times[j] < times[i] + limits.blockMs {
      RefusedDuringBlock(limits, times, i, j);
    }
  }

  /** Every refusal names a trip: it either trips or falls in the block of the latest trip. */
  lemma {:induction false} RefusalHasATrip(limits: Limits, times: seq<int>, j: nat) returns (i: nat)
    requires Clock(times) && j < |times| && !Answer(limits, times, j).allowed
    ensures i <= j && Answer(limits, times, i).tripped
    ensures i < j ==> times[j] < times[i] + limits.blockMs
  {
    if Answer(limits, times, j).tripped {
      i := j;
    } else {
      i := BlockHasATrip(limits, times, j);
    }
  }

  lemma {:induction false} BlockHasATrip(limits: Limits, times: seq<int>, j: nat) returns (i: nat)
    requires Clock(times) && j <= |times| && After(limits, times[..j]).blockedUntil > 0
    ensures i < j && Answer(limits, times, i).tripped
    ensures After(limits, times[..j]).blockedUntil == times[i] + limits.blockMs
  {
    assert times[..j][..j - 1] == times[..j - 1];
    if Answer(limits, times, j - 1).tripped {
      i := j - 1;
    } else {
      i := BlockHasATrip(limits, times, j - 1);
    }
  }

  // ------------------------------------------------- a trip only for a full window

  function Latest(times: seq<int>): int {
    if times == [] then 0 else times[|times| - 1]
  }

  /** An attempt at `now` may follow the earlier ones. */
  ghost predicate Comes(front: seq<int>, now: int) {
    Clock(front) && Latest(front) <= now && 0 <= now
  }

  lemma ClockComes(times: seq<int>, n: nat)
    requires Clock(times) && n < |times|
    ensures Comes(times[..n], times[n])
  {
  }

  /** The attempts recorded after `lo` were allowed, unless the limit is reached anyway. */
  ghost predicate Backed(limits: Limits, times: seq<int>, attempts: seq<int>, lo: int, hi: int) {
    || CountAbove(attempts, lo) <= AllowedWithin(limits, times, lo, hi)
    || limits.maxAttempts <= AllowedWithin(limits, times, lo, hi)
  }

  ghost predicate AllBacked(limits: Limits, times: seq<int>, attempts: seq<int>) {
    forall lo, hi | Latest(times) <= hi :: Backed(limits, times, attempts, lo, hi)
  }

  lemma BackedAt(limits: Limits, times: seq<int>, attempts: seq<int>, lo: int, hi: int)
    requires AllBacked(limits, times, attempts) && Latest(times) <= hi
    ensures Backed(limits, times, attempts, lo, hi)
  {
  }

  lemma NoneIsBacked(limits: Limits, times: seq<int>)
    ensures AllBacked(limits, times, [])
  {
    forall lo, hi | Latest(times) <= hi ensures Backed(limits, times, [], lo, hi) {
    }
  }

  /** The attempts that still count when the next one comes. */
  function Kept(state: KeyState): seq<int> {
    if state.blockedUntil > 0 then [] else state.attempts
  }

  lemma {:induction false} SinceForgetsTheOld(attempts: seq<int>, cutoff: int, lo: int)
    ensures CountAbove(Since(attempts, cutoff), lo) <= CountAbove(attempts, lo)
    ensures |Since(attempts, cutoff)| == CountAbove(attempts, cutoff - 1)
  {
    if attempts == [] {
    } else {
      var front, last := attempts[..|attempts| - 1], attempts[|attempts| - 1];
      SinceForgetsTheOld(front, cutoff, lo);
      CountAboveAppend(Since(front, cutoff), last, lo);
    }
  }

  /** The attempt counts together with those kept, and trips when they are too many. */
  lemma DecideMeans(limits: Limits, state: KeyState, now: int)
    requires state.blockedUntil <= now
    ensures var attempts := Since(Kept(state), now - limits.windowMs) + [now]; var (next, answer) := Decide(limits, state, now);
            && next.attempts == attempts && answer.attempts == |attempts| && (answer.allowed <==> !answer.tripped)
            && (answer.tripped <==> |attempts| > limits.maxAttempts)
            && (answer.tripped ==> next.blockedUntil == now + limits.blockMs && answer.retryAfterMs == limits.blockMs)
            && (answer.allowed ==> next.blockedUntil <= 0 && answer.retryAfterMs == 0)
  {
  }

  lemma AllowedIsBacked(limits: Limits, front: seq<int>, kept: seq<int>, now: int, lo: int, hi: int)
    requires Backed(limits, front, kept, lo, hi) && now <= hi
    requires Decide(limits, After(limits, front), now).1.allowed
    ensures Backed(limits, front + [now], Since(kept, now - limits.windowMs) + [now], lo, hi)
  {
    var cutoff := now - limits.windowMs;
    Append(limits, front, now, lo, hi);
    SinceForgetsTheOld(kept, cutoff, lo);
    CountAboveAppend(Since(kept, cutoff), now, lo);
  }

  /** Enough recorded attempts make the window full. */
  lemma FullWindow(limits: Limits, front: seq<int>, kept: seq<int>, cutoff: int, hi: int)
    requires AllBacked(limits, front, kept) && Latest(front) <= hi
    requires |Since(kept, cutoff)| >= limits.maxAttempts
    ensures AllowedWithin(limits, front, cutoff - 1, hi) >= limits.maxAttempts
  {
    SinceForgetsTheOld(kept, cutoff, cutoff - 1);
    BackedAt(limits, front, kept, cutoff - 1, hi);
  }

  lemma {:induction false} NothingBeforeZero(limits: Limits, times: seq<int>, lo: int, other: int, hi: int)
    requires Clock(times) && lo < 0 && other < 0
    ensures AllowedWithin(limits, times, lo, hi) == AllowedWithin(limits, times, other, hi)
  {
    if times == [] {
    } else {
      NothingBeforeZero(limits, times[..|times| - 1], lo, other, hi);
    }
  }

  ghost predicate NotLaterThan(attempts: seq<int>, now: int) {
    forall i | 0 <= i < |attempts| :: attempts[i] <= now
  }

  lemma {:induction false} NoneAbove(attempts: seq<int>, lo: int)
    requires NotLaterThan(attempts, lo)
    ensures CountAbove(attempts, lo) == 0
  {
    if attempts == [] {
    } else {
      NoneAbove(attempts[..|attempts| - 1], lo);
    }
  }

  lemma {:induction false} SinceIsNotLater(attempts: seq<int>, cutoff: int, now: int)
    requires NotLaterThan(attempts, now)
    ensures NotLaterThan(Since(attempts, cutoff), now)
  {
    if attempts == [] {
    } else {
      SinceIsNotLater(attempts[..|attempts| - 1], cutoff, now);
    }
  }

  lemma StillNotLater(attempts: seq<int>, earlier: int, now: int)
    requires NotLaterThan(attempts, earlier) && earlier <= now
    ensures NotLaterThan(attempts, now)
  {
  }

  /** With a block of no length, a trip at the very start of time leaves its attempts recorded. */
  lemma TripAtZeroIsBacked(limits: Limits, front: seq<int>, kept: seq<int>, attempts: seq<int>, lo: int, hi: int)
    requires AllBacked(limits, front, kept) && Comes(front, 0) && hi >= 0
    requires |Since(kept, 0 - limits.windowMs)| >= limits.maxAttempts
    requires NotLaterThan(attempts, 0)
    ensures Backed(limits, front + [0], attempts, lo, hi)
  {
    if lo < 0 {
      FullWindow(limits, front, kept, 0 - limits.windowMs, hi);
      NothingBeforeZero(limits, front, lo, 0 - limits.windowMs - 1, hi);
      Append(limits, front, 0, lo, hi);
    } else {
      NoneAbove(attempts, lo);
    }
  }

  /** What is recorded for a key, apart from a block that has run out. */
  ghost predicate Honest(limits: Limits, times: seq<int>, state: KeyState) {
    state.blockedUntil >= 0 && AllBacked(limits, times, Kept(state)) && NotLaterThan(Kept(state), Latest(times))
  }

  /** The new record after an attempt that is not refused by a block. */
  lemma TrippedIsBacked(limits: Limits, front: seq<int>, kept: seq<int>, lo: int, hi: int)
    requires Comes(front, 0) && 0 <= hi && AllBacked(limits, front, kept) && NotLaterThan(kept, 0)
    requires |Since(kept, 0 - limits.windowMs)| >= limits.maxAttempts
    ensures Backed(limits, front + [0], Since(kept, 0 - limits.windowMs) + [0], lo, hi)
  {
    SinceIsNotLater(kept, 0 - limits.windowMs, 0);
    TripAtZeroIsBacked(limits, front, kept, Since(kept, 0 - limits.windowMs) + [0], lo, hi);
  }

  lemma NewAttemptsAreBacked(limits: Limits, front: seq<int>, kept: seq<int>, now: int, lo: int, hi: int)
    requires Comes(front, now) && now <= hi && AllBacked(limits, front, kept) && NotLaterThan(kept, now)
    requires Decide(limits, After(limits, front), now).1.allowed || (now == 0 && |Since(kept, now - limits.windowMs)| >= limits.maxAttempts)
    ensures Backed(limits, front + [now], Since(kept, now - limits.windowMs) + [now], lo, hi)
  {
    if Decide(limits, After(limits, front), now).1.allowed {
      BackedAt(limits, front, kept, lo, hi);
      AllowedIsBacked(limits, front, kept, now, lo, hi);
    } else {
      TrippedIsBacked(limits, front, kept, lo, hi);
    }
  }

  lemma NewRecordIsBacked(limits: Limits, front: seq<int>, kept: seq<int>, now: int)
    requires Comes(front, now) && AllBacked(limits, front, kept) && NotLaterThan(kept, now)
    requires Decide(limits, After(limits, front), now).1.allowed || (now == 0 && |Since(kept, now - limits.windowMs)| >= limits.maxAttempts)
    ensures AllBacked(limits, front + [now], Since(kept, now - limits.windowMs) + [now])
  {
    var times, attempts := front + [now], Since(kept, now - limits.windowMs) + [now];
    forall lo, hi | Latest(times) <= hi ensures Backed(limits, times, attempts, lo, hi) {
      NewAttemptsAreBacked(limits, front, kept, now, lo, hi);
    }
  }

  /** A trip that does not block happens at the start of time. */
  lemma TripMeans(limits: Limits, state: KeyState, now: int)
    requires Decide(limits, state, now).1.tripped
    ensures |Since(Kept(state), now - limits.windowMs)| >= limits.maxAttempts
    ensures state.blockedUntil <= now && Decide(limits, state, now).0.blockedUntil == now + limits.blockMs
  {
  }

  lemma NextIsHonest(limits: Limits, times: seq<int>, next: KeyState)
    requires next.blockedUntil >= 0 && NotLaterThan(next.attempts, Latest(times))
    requires next.blockedUntil > 0 || AllBacked(limits, times, next.attempts)
    ensures Honest(limits, times, next)
  {
    NoneIsBacked(limits, times);
  }

  lemma NextIsNotLater(limits: Limits, state: KeyState, now: int)
    requires state.blockedUntil <= now && NotLaterThan(Kept(state), now)
    ensures NotLaterThan(Decide(limits, state, now).0.attempts, now)
  {
    DecideMeans(limits, state, now);
    SinceIsNotLater(Kept(state), now - limits.windowMs, now);
  }

  lemma NextBlockIsNotNegative(limits: Limits, state: KeyState, now: int)
    requires state.blockedUntil >= 0 && now >= 0
    ensures Decide(limits, state, now).0.blockedUntil >= 0
  {
  }

  lemma RecordGoesOn(limits: Limits, front: seq<int>, now: int, state: KeyState)
    requires Comes(front, now) && state == After(limits, front) && Honest(limits, front, state) && state.blockedUntil <= now
    requires Decide(limits, state, now).0.blockedUntil <= 0
    ensures AllBacked(limits, front + [now], Decide(limits, state, now).0.attempts)
  {
    StillNotLater(Kept(state), Latest(front), now);
    DecideMeans(limits, state, now);
    NewRecordIsBacked(limits, front, Kept(state), now);
  }

  lemma OpenStaysHonest(limits: Limits, front: seq<int>, now: int, state: KeyState)
    requires Comes(front, now) && state == After(limits, front) && Honest(limits, front, state) && state.blockedUntil <= now
    ensures Honest(limits, front + [now], Decide(limits, state, now).0)
  {
    StillNotLater(Kept(state), Latest(front), now);
    NextIsNotLater(limits, state, now);
    NextBlockIsNotNegative(limits, state, now);
    if Decide(limits, state, now).0.blockedUntil <= 0 {
      RecordGoesOn(limits, front, now, state);
    }
    NextIsHonest(limits, front + [now], Decide(limits, state, now).0);
  }

  lemma StaysHonest(limits: Limits, front: seq<int>, now: int)
    requires Comes(front, now) && Honest(limits, front, After(limits, front))
    ensures Honest(limits, front + [now], Decide(limits, After(limits, front), now).0)
  {
    var state := After(limits, front);
    if state.blockedUntil > now {
      NoneIsBacked(limits, front + [now]);
    } else {
      OpenStaysHonest(limits, front, now, state);
    }
  }

  lemma {:induction false} AlwaysHonest(limits: Limits, times: seq<int>)
    requires Clock(times)
    ensures Honest(limits, times, After(limits, times))
  {
    if times == [] {
      NoneIsBacked(limits, []);
    } else {
      var front, now := times[..|times| - 1], times[|times| - 1];
      assert times == front + [now];
      AlwaysHonest(limits, front);
      ClockComes(times, |times| - 1);
      StaysHonest(limits, front, now);
    }
  }

  lemma HonestWindow(limits: Limits, front: seq<int>, state: KeyState, cutoff: int, hi: int)
    requires Honest(limits, front, state) && Latest(front) <= hi && |Since(Kept(state), cutoff)| >= limits.maxAttempts
    ensures AllowedWithin(limits, front, cutoff - 1, hi) >= limits.maxAttempts
  {
    FullWindow(limits, front, Kept(state), cutoff, hi);
  }

  /** Enough attempts later than `lo` are recorded for the window to be full. */
  ghost predicate Records(limits: Limits, state: KeyState, lo: int) {
    |Since(Kept(state), lo + 1)| >= limits.maxAttempts
  }

  lemma TripRecords(limits: Limits, state: KeyState, now: int, lo: int)
    requires Decide(limits, state, now).1.tripped && lo == now - limits.windowMs - 1
    ensures Records(limits, state, lo)
  {
    TripMeans(limits, state, now);
  }

  lemma RecordedWindow(limits: Limits, front: seq<int>, state: KeyState, lo: int, hi: int)
    requires Clock(front) && Latest(front) <= hi && state == After(limits, front) && Records(limits, state, lo)
    ensures AllowedWithin(limits, front, lo, hi) >= limits.maxAttempts
  {
    AlwaysHonest(limits, front);
    HonestWindow(limits, front, state, lo + 1, hi);
  }

  lemma TripThen(limits: Limits, front: seq<int>, state: KeyState, now: int, lo: int)
    requires Comes(front, now) && state == After(limits, front) && Decide(limits, state, now).1.tripped
    requires lo == now - limits.windowMs - 1
    ensures AllowedWithin(limits, front, lo, now) >= limits.maxAttempts
  {
    TripRecords(limits, state, now, lo);
    RecordedWindow(limits, front, state, lo, now);
  }

  /** A key is only blocked when the limit was really reached within the window. */
  lemma TripOnlyWhenFull(limits: Limits, times: seq<int>, j: nat)
    requires Clock(times) && j < |times| && Answer(limits, times, j).tripped
    ensures AllowedWithin(limits, times[..j], times[j] - limits.windowMs - 1, times[j]) >= limits.maxAttempts
  {
    ClockComes(times, j);
    TripThen(limits, times[..j], After(limits, times[..j]), times[j], times[j] - limits.windowMs - 1);
  }

  /** Every refusal goes back to a window that was really full. */
  lemma RefusalOnlyWhenFull(limits: Limits, times: seq<int>, j: nat) returns (i: nat)
    requires Clock(times) && j < |times| && !Answer(limits, times, j).allowed
    ensures i <= j && Answer(limits, times, i).tripped && (i < j ==> times[j] < times[i] + limits.blockMs)
    ensures AllowedWithin(limits, times[..i], times[i] - limits.windowMs - 1, times[i]) >= limits.maxAttempts
  {
    i := RefusalHasATrip(limits, times, j);
    TripOnlyWhenFull(limits, times, i);
  }
}
