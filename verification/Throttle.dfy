/**
 Fixed-window rate limits and the login lockout, over counters and locks that expire. A key
 exists until its expiry; incrementing a live counter does not move its expiry.
 */
module Throttle {
  import opened Base

  datatype Counter = Counter(count: nat, expires: int)

  function Incremented(counter: Option<Counter>, ttl: nat, now: int): Counter {
    if counter.Some? && now < counter.value.expires then counter.value.(count := counter.value.count + 1)
    else Counter(1, now + ttl)
  }

  // ---------------------------------------------------------------- fixed windows

  ghost predicate InTurn(times: seq<int>) {
    forall i, j :: 0 <= i < j < |times| ==> times[i] <= times[j]
  }

  /** The counter after hits at the given times. */
  function CounterAfter(times: seq<int>, window: nat): Option<Counter> {
    if times == [] then None
    else Some(Incremented(CounterAfter(times[..|times| - 1], window), window, times[|times| - 1]))
  }

  /** Whether the last hit is let through. */
  predicate Allowed(times: seq<int>, limit: int, window: nat)
    requires times != []
  {
    CounterAfter(times, window).value.count <= limit
  }

  /** The hits let through from `from` on and before `to`. */
  function AllowedIn(times: seq<int>, limit: int, window: nat, from: int, to: int): nat {
    if times == [] then 0
    else AllowedIn(times[..|times| - 1], limit, window, from, to)
         + (if from <= times[|times| - 1] < to && Allowed(times, limit, window) then 1 else 0)
  }

  function Least(a: int, b: int): int {
    if a < b then a else b
  }

  /** What the counter says about the hits let through in a span so far. */
  ghost predicate Spent(times: seq<int>, limit: int, window: nat, from: int) {
    var n := AllowedIn(times, limit, window, from, from + window);
    && (times == [] || times[|times| - 1] < from ==> n == 0)
    && (times != [] ==>
          var c := CounterAfter(times, window).value;
          && c.count >= 1 && c.expires - window <= times[|times| - 1] < c.expires
          && (c.expires - window < from ==> n <= Least(c.count, limit) - 1)
          && (from <= c.expires - window < from + window ==> n <= Least(c.count, limit) + limit - 1)
          && n <= 2 * limit - 1)
  }

  lemma SpentNext(times: seq<int>, limit: int, window: nat, from: int)
    requires times != [] && InTurn(times) && limit >= 1 && window >= 1
    requires Spent(times[..|times| - 1], limit, window, from)
    ensures Spent(times, limit, window, from)
  {
    var before := times[..|times| - 1];
    if before != [] {
      assert before[|before| - 1] <= times[|times| - 1];
    }
  }

  lemma {:induction false} SpentAlways(times: seq<int>, limit: int, window: nat, from: int)
    requires InTurn(times) && limit >= 1 && window >= 1
    ensures Spent(times, limit, window, from)
  {
    if times != [] {
      SpentAlways(times[..|times| - 1], limit, window, from);
      SpentNext(times, limit, window, from);
    }
  }

  lemma {:induction false} NothingAllowed(times: seq<int>, limit: int, window: nat, from: int, to: int)
    requires limit <= 0
    ensures AllowedIn(times, limit, window, from, to) == 0
  {
    if times != [] {
      NothingAllowed(times[..|times| - 1], limit, window, from, to);
    }
  }

  /** A span as long as the window lets fewer than twice the limit through. */
  lemma FewerThanTwiceTheLimit(times: seq<int>, limit: int, window: nat, from: int)
    requires InTurn(times) && window >= 1
    ensures limit >= 1 ==> AllowedIn(times, limit, window, from, from + window) <= 2 * limit - 1
    ensures limit <= 0 ==> AllowedIn(times, limit, window, from, from + window) == 0
  {
    if limit >= 1 {
      SpentAlways(times, limit, window, from);
    } else {
      NothingAllowed(times, limit, window, from, from + window);
    }
  }

  // ---------------------------------------------------------------- the bound is met

  function Repeat(t: int, n: nat): (times: seq<int>)
    ensures |times| == n && forall i :: 0 <= i < n ==> times[i] == t
  {
    if n == 0 then [] else Repeat(t, n - 1) + [t]
  }

  /** Hits at one moment that a live counter still has room for. */
  lemma {:induction false} RoomFor(before: seq<int>, t: int, n: nat, limit: int, window: nat, from: int, to: int)
    requires CounterAfter(before, window).Some?
    requires var c := CounterAfter(before, window).value; t < c.expires && c.count + n <= limit
    ensures var c, times := CounterAfter(before, window).value, before + Repeat(t, n);
            && CounterAfter(times, window) == Some(Counter(c.count + n, c.expires))
            && AllowedIn(times, limit, window, from, to) ==
               AllowedIn(before, limit, window, from, to) + if from <= t < to then n else 0
    decreases n
  {
    if n == 0 {
      assert before + Repeat(t, 0) == before;
    } else {
      var most := before + Repeat(t, n - 1);
      RoomFor(before, t, n - 1, limit, window, from, to);
      NextHit(most, t, limit, window, from, to);
      assert most + [t] == before + Repeat(t, n) by {
        assert Repeat(t, n) == Repeat(t, n - 1) + [t];
      }
    }
  }

  lemma NextHit(before: seq<int>, t: int, limit: int, window: nat, from: int, to: int)
    ensures var times, counter := before + [t], Incremented(CounterAfter(before, window), window, t);
            && CounterAfter(times, window) == Some(counter)
            && AllowedIn(times, limit, window, from, to) ==
               AllowedIn(before, limit, window, from, to) + if from <= t < to && counter.count <= limit then 1 else 0
  {
    assert (before + [t])[..|before|] == before;
  }

  lemma OneHit(t: int, limit: int, window: nat, from: int, to: int)
    requires limit >= 1
    ensures CounterAfter([t], window) == Some(Counter(1, t + window))
    ensures AllowedIn([t], limit, window, from, to) == if from <= t < to then 1 else 0
  {
    NextHit([], t, limit, window, from, to);
    assert [] + [t] == [t];
  }

  function Bursts(start: int, limit: int, window: nat): seq<int>
    requires limit >= 1 && window >= 1
  {
    [start] + Repeat(start + window - 1, limit - 1) + [start + window] + Repeat(start + window, limit - 1)
  }

  /** A hit that opens a window, and the rest of the limit at its end. */
  lemma FirstBurst(start: int, limit: int, window: nat)
    requires limit >= 1 && window >= 2
    ensures var times, from := [start] + Repeat(start + window - 1, limit - 1), start + window - 1;
            && CounterAfter(times, window) == Some(Counter(limit, start + window))
            && AllowedIn(times, limit, window, from, from + window) == limit - 1
  {
    var from := start + window - 1;
    OneHit(start, limit, window, from, from + window);
    RoomFor([start], from, limit - 1, limit, window, from, from + window);
  }

  /** The whole limit again when the counter has expired. */
  lemma SecondBurst(first: seq<int>, t: int, limit: int, window: nat, from: int, to: int)
    requires limit >= 1 && window >= 1 && from <= t < to
    requires CounterAfter(first, window).Some? && CounterAfter(first, window).value.expires <= t
    ensures AllowedIn(first + [t] + Repeat(t, limit - 1), limit, window, from, to)
            == AllowedIn(first, limit, window, from, to) + limit
  {
    Reopens(first, t, limit, window, from, to);
    RoomFor(first + [t], t, limit - 1, limit, window, from, to);
  }

  lemma Reopens(first: seq<int>, t: int, limit: int, window: nat, from: int, to: int)
    requires limit >= 1 && from <= t < to
    requires CounterAfter(first, window).Some? && CounterAfter(first, window).value.expires <= t
    ensures CounterAfter(first + [t], window) == Some(Counter(1, t + window))
    ensures AllowedIn(first + [t], limit, window, from, to) == AllowedIn(first, limit, window, from, to) + 1
  {
    NextHit(first, t, limit, window, from, to);
  }

  lemma BurstsInTurn(start: int, limit: int, window: nat)
    requires limit >= 1 && window >= 1
    ensures InTurn(Bursts(start, limit, window))
  {
    var times := Bursts(start, limit, window);
    assert forall i :: 1 <= i < limit ==> times[i] == start + window - 1;
    assert forall i :: limit <= i < |times| ==> times[i] == start + window;
  }

  lemma BurstsReach(start: int, limit: int, window: nat)
    requires limit >= 1 && window >= 2
    ensures InTurn(Bursts(start, limit, window))
    ensures var from := start + window - 1;
            AllowedIn(Bursts(start, limit, window), limit, window, from, from + window) == 2 * limit - 1
  {
    var from := start + window - 1;
    FirstBurst(start, limit, window);
    SecondBurst([start] + Repeat(from, limit - 1), start + window, limit, window, from, from + window);
    BurstsInTurn(start, limit, window);
  }

  /** Within a window of one moment all hits share a counter. */
  ghost predicate SpentMoment(times: seq<int>, limit: int, from: int) {
    var n := AllowedIn(times, limit, 1, from, from + 1);
    && (times == [] || times[|times| - 1] < from ==> n == 0)
    && n <= limit
    && (times != [] ==>
          var c := CounterAfter(times, 1).value;
          && c.count >= 1 && c.expires == times[|times| - 1] + 1
          && (c.expires - 1 == from ==> n <= Least(c.count, limit)))
  }

  lemma {:induction false} SpentMomentAlways(times: seq<int>, limit: int, from: int)
    requires InTurn(times) && limit >= 1
    ensures SpentMoment(times, limit, from)
  {
    if times != [] {
      var before := times[..|times| - 1];
      SpentMomentAlways(before, limit, from);
      if before != [] {
        assert before[|before| - 1] <= times[|times| - 1];
      }
    }
  }

  lemma RepeatAtOnce(t: int, limit: int)
    requires limit >= 1
    ensures InTurn([t] + Repeat(t, limit - 1))
    ensures AllowedIn([t] + Repeat(t, limit - 1), limit, 1, t, t + 1) == limit
  {
    OneHit(t, limit, 1, t, t + 1);
    RoomFor([t], t, limit - 1, limit, 1, t, t + 1);
  }

  /** The most hits that a span as long as the window can let through. */
  function MostAllowed(limit: int, window: nat): int {
    if limit <= 0 then 0 else if window == 1 then limit else 2 * limit - 1
  }

  /** On the way to a count every smaller one was met. */
  lemma {:induction false} CountsUp(times: seq<int>, limit: int, window: nat, from: int, to: int, n: nat)
    returns (k: nat)
    requires n <= AllowedIn(times, limit, window, from, to)
    ensures k <= |times| && AllowedIn(times[..k], limit, window, from, to) == n
  {
    if AllowedIn(times, limit, window, from, to) == n {
      k := |times|;
      assert times[..k] == times;
    } else {
      k := CountsUp(times[..|times| - 1], limit, window, from, to, n);
      assert times[..|times| - 1][..k] == times[..k];
    }
  }

  function InSpan(times: seq<int>, limit: int, window: nat, from: int): nat {
    AllowedIn(times, limit, window, from, from + window)
  }

  ghost predicate Possible(limit: int, window: nat, n: nat) {
    exists times, from :: InTurn(times) && InSpan(times, limit, window, from) == n
  }

  lemma MostIsPossible(start: int, limit: int, window: nat, n: nat)
    requires window >= 1 && n <= MostAllowed(limit, window)
    ensures Possible(limit, window, n)
  {
    if limit <= 0 {
      assert InTurn([]) && InSpan([], limit, window, start) == n;
    } else {
      var times, from := Bursts(start, limit, window), start + window - 1;
      if window == 1 {
        RepeatAtOnce(start, limit);
        times := [start] + Repeat(start, limit - 1);
      } else {
        BurstsReach(start, limit, window);
      }
      var k := CountsUp(times, limit, window, from, from + window, n);
      assert InTurn(times[..k]) && InSpan(times[..k], limit, window, from) == n;
    }
  }

  /**
   For every limit and window, a number of hits can pass in one span as long as the window if and
   only if it is below twice the limit, or within it where the window is a single moment.
   */
  lemma AllowedExactly(limit: int, window: nat, n: nat)
    requires window >= 1
    ensures Possible(limit, window, n) <==> n <= MostAllowed(limit, window)
  {
    if n <= MostAllowed(limit, window) {
      MostIsPossible(0, limit, window, n);
    }
    forall times, from | InTurn(times) ensures InSpan(times, limit, window, from) <= MostAllowed(limit, window) {
      FewerThanTwiceTheLimit(times, limit, window, from);
      if window == 1 && limit >= 1 {
        SpentMomentAlways(times, limit, from);
      }
    }
  }

  // ---------------------------------------------------------------- login lockout

  /** `lock` is the time until which the account is locked. */
  datatype Account = Account(failures: Option<Counter>, lock: Option<int>)

  datatype Policy = Policy(maxFailures: int, lockoutSeconds: nat)

  ghost predicate Sensible(p: Policy) {
    p.maxFailures >= 1 && p.lockoutSeconds >= 1
  }

  function Doubled(n: nat): (r: nat)
    ensures r >= 1
  {
    if n == 0 then 1 else 2 * Doubled(n - 1)
  }

  predicate Locked(a: Account, now: int) {
    a.lock.Some? && now < a.lock.value
  }

  function RecordedFailure(p: Policy, a: Account, now: int): Account {
    var failures := Incremented(a.failures, p.lockoutSeconds, now);
    if failures.count >= p.maxFailures then
      var over := failures.count - p.maxFailures;
      Account(Some(failures), Some(now + Least(p.lockoutSeconds, 60 * Doubled(over))))
    else a.(failures := Some(failures))
  }

  const CLEAR := Account(None, None)

  /** An account and how many attempts have passed the lock check and await the password's verdict. */
  datatype Traffic = Traffic(account: Account, inFlight: nat)

  const IDLE := Traffic(CLEAR, 0)

  datatype LoginStep =
    | Check(time: int)
    | Finish(time: int, succeeds: bool)

  /** At most `k` attempts are in flight; a locked account is turned away before the password is looked at. */
  function Stepped(p: Policy, k: nat, l: Traffic, step: LoginStep): Traffic {
    match step
    case Check(time) =>
      if Locked(l.account, time) || l.inFlight >= k then l else l.(inFlight := l.inFlight + 1)
    case Finish(time, succeeds) =>
      if l.inFlight == 0 then l
      else Traffic(if succeeds then CLEAR else RecordedFailure(p, l.account, time), l.inFlight - 1)
  }

  function After(p: Policy, k: nat, l: Traffic, steps: seq<LoginStep>): Traffic {
    if steps == [] then l else Stepped(p, k, After(p, k, l, steps[..|steps| - 1]), steps[|steps| - 1])
  }

  ghost predicate InSequence(steps: seq<LoginStep>) {
    forall i, j :: 0 <= i < j < |steps| ==> steps[i].time <= steps[j].time
  }

  lemma {:induction false} DoublingGrows(i: nat, j: nat)
    requires i <= j
    ensures Doubled(i) <= Doubled(j)
    decreases j
  {
    if i < j {
      DoublingGrows(i, j - 1);
    }
  }

  /**
   How long into the counter's life the lock keeps everyone out, at the least, once the failures
   exceed the last free one by `extra` and at most `k` at a time were recorded between two locks.
   */
  function Waits(k: nat, extra: int): (seconds: nat)
    requires k >= 1
    decreases if extra <= 0 then 0 else extra
  {
    if extra <= 0 then 0 else 60 * Doubled(extra - 1) + Waits(k, extra - k)
  }

  lemma {:induction false} WaitsGrow(k: nat, a: int, b: int)
    requires k >= 1 && a <= b
    ensures Waits(k, a) <= Waits(k, b)
    decreases if b <= 0 then 0 else b
  {
    if a > 0 {
      DoublingGrows(a - 1, b - 1);
      WaitsGrow(k, a - k, b - k);
    }
  }

  // ---------------------------------------------------------------- the bound holds

  /** `seen` is the number of failures that the last check in this counter's life found. */
  ghost predicate Paced(p: Policy, k: nat, l: Traffic, now: int, seen: nat)
    requires k >= 1
  {
    && l.inFlight <= k
    && (l.account.failures.Some? ==>
          var c := l.account.failures.value;
          var start := c.expires - p.lockoutSeconds;
          && c.count <= seen + k && (now < c.expires ==> c.count + l.inFlight <= seen + k)
          && Waits(k, seen - p.maxFailures + 1) < p.lockoutSeconds
          && start + Waits(k, seen - p.maxFailures + 1) <= now
          && (c.count >= p.maxFailures ==>
                && l.account.lock.Some?
                && l.account.lock.value >= start + Least(p.lockoutSeconds, Waits(k, c.count - p.maxFailures + 1))))
  }

  lemma CheckPaced(p: Policy, k: nat, l: Traffic, before: int, seen: nat, now: int) returns (found: nat)
    requires Sensible(p) && k >= 1 && Paced(p, k, l, before, seen) && before <= now
    ensures Paced(p, k, Stepped(p, k, l, Check(now)), now, found)
  {
    found := seen;
    if l.account.failures.Some? && now < l.account.failures.value.expires && !Locked(l.account, now) && l.inFlight < k {
      found := l.account.failures.value.count;
    }
  }

  lemma FinishPaced(p: Policy, k: nat, l: Traffic, before: int, seen: nat, now: int, succeeds: bool)
    returns (found: nat)
    requires Sensible(p) && k >= 1 && Paced(p, k, l, before, seen) && before <= now
    ensures Paced(p, k, Stepped(p, k, l, Finish(now, succeeds)), now, found)
  {
    found := seen;
    if l.inFlight > 0 && !succeeds {
      if l.account.failures.Some? && now < l.account.failures.value.expires {
        var count := l.account.failures.value.count + 1;
        WaitsGrow(k, count - p.maxFailures + 1 - k, seen - p.maxFailures + 1);
      } else {
        found := 0;
      }
    }
  }

  lemma {:induction false} AlwaysPaced(p: Policy, k: nat, steps: seq<LoginStep>) returns (seen: nat)
    requires Sensible(p) && k >= 1 && InSequence(steps) && steps != []
    ensures Paced(p, k, After(p, k, IDLE, steps), steps[|steps| - 1].time, seen)
  {
    var rest, last := steps[..|steps| - 1], steps[|steps| - 1];
    var before := last.time;
    seen := 0;
    if rest != [] {
      seen := AlwaysPaced(p, k, rest);
      before := rest[|rest| - 1].time;
      assert before <= last.time;
    }
    match last {
      case Check(time) => seen := CheckPaced(p, k, After(p, k, IDLE, rest), before, seen, time);
      case Finish(time, succeeds) => seen := FinishPaced(p, k, After(p, k, IDLE, rest), before, seen, time, succeeds);
    }
  }

  /** The largest number of failures past the last free one whose waits fit into the lockout time. */
  ghost predicate ExtraFailures(p: Policy, k: nat, extra: nat)
    requires k >= 1
  {
    Waits(k, extra) < p.lockoutSeconds && Waits(k, extra + 1) >= p.lockoutSeconds
  }

  lemma ExtraFailuresExist(p: Policy, k: nat) returns (extra: nat)
    requires Sensible(p) && k >= 1
    ensures ExtraFailures(p, k, extra)
  {
    extra := 0;
    while Waits(k, extra + 1) < p.lockoutSeconds
      invariant Waits(k, extra) < p.lockoutSeconds
      decreases p.lockoutSeconds - Doubled(extra)
    {
      extra := extra + 1;
    }
  }

  /** One life of the failure counter records at most the free failures, the extra ones and those in flight. */
  lemma FailuresBounded(p: Policy, k: nat, steps: seq<LoginStep>, extra: nat)
    requires Sensible(p) && k >= 1 && InSequence(steps) && ExtraFailures(p, k, extra)
    ensures var a := After(p, k, IDLE, steps).account;
            a.failures.Some? ==> a.failures.value.count <= p.maxFailures - 1 + extra + k
  {
    if steps != [] {
      var seen := AlwaysPaced(p, k, steps);
      if seen - p.maxFailures + 1 > extra {
        WaitsGrow(k, extra + 1, seen - p.maxFailures + 1);
      }
    }
  }

  // ---------------------------------------------------------------- the bound is met

  function Checks(time: int, n: nat): (steps: seq<LoginStep>)
    ensures |steps| == n && forall i :: 0 <= i < n ==> steps[i] == Check(time)
  {
    if n == 0 then [] else Checks(time, n - 1) + [Check(time)]
  }

  function Failures(time: int, n: nat): (steps: seq<LoginStep>)
    ensures |steps| == n && forall i :: 0 <= i < n ==> steps[i] == Finish(time, false)
  {
    if n == 0 then [] else Failures(time, n - 1) + [Finish(time, false)]
  }

  lemma {:induction false} AfterMore(p: Policy, k: nat, l: Traffic, steps: seq<LoginStep>, more: seq<LoginStep>)
    ensures After(p, k, l, steps + more) == After(p, k, After(p, k, l, steps), more)
    decreases |more|
  {
    if more == [] {
      assert steps + more == steps;
    } else {
      AfterMore(p, k, l, steps, more[..|more| - 1]);
      assert (steps + more)[..|steps + more| - 1] == steps + more[..|more| - 1];
    }
  }

  lemma {:induction false} ChecksPass(p: Policy, k: nat, l: Traffic, time: int, n: nat)
    requires !Locked(l.account, time) && l.inFlight + n <= k
    ensures After(p, k, l, Checks(time, n)) == l.(inFlight := l.inFlight + n)
    decreases n
  {
    if n > 0 {
      assert Checks(time, n)[..n - 1] == Checks(time, n - 1);
      ChecksPass(p, k, l, time, n - 1);
    }
  }

  /** The counter in its life, or before it; there is no lock before the last free failure. */
  ghost predicate Counting(p: Policy, a: Account, time: int, count: nat, expires: int) {
    && a.failures == (if count == 0 then None else Some(Counter(count, expires)))
    && time < expires && (count == 0 ==> expires == time + p.lockoutSeconds)
    && (count < p.maxFailures ==> a.lock == None)
  }

  /** The lock that the last failure left, if it was recorded at `time`. */
  ghost predicate LockedSince(p: Policy, a: Account, time: int, count: nat) {
    count >= p.maxFailures ==>
      a.lock == Some(time + Least(p.lockoutSeconds, 60 * Doubled(count - p.maxFailures)))
  }

  ghost predicate Recorded(p: Policy, a: Account, time: int, count: nat, expires: int) {
    Counting(p, a, time, count, expires) && LockedSince(p, a, time, count)
  }

  lemma FailureCounts(p: Policy, a: Account, time: int, count: nat, expires: int)
    requires Sensible(p) && Counting(p, a, time, count, expires)
    ensures Recorded(p, RecordedFailure(p, a, time), time, count + 1, expires)
  {
  }

  lemma {:induction false} FailuresCount(p: Policy, k: nat, l: Traffic, time: int, n: nat, count: nat, expires: int)
    requires Sensible(p) && 1 <= n <= l.inFlight && Counting(p, l.account, time, count, expires)
    ensures var m := After(p, k, l, Failures(time, n));
            m.inFlight == l.inFlight - n && Recorded(p, m.account, time, count + n, expires)
    decreases n
  {
    var before := After(p, k, l, Failures(time, n - 1));
    assert Failures(time, n)[..n - 1] == Failures(time, n - 1);
    assert After(p, k, l, Failures(time, n)) == Stepped(p, k, before, Finish(time, false));
    if n == 1 {
      assert before == l;
    } else {
      FailuresCount(p, k, l, time, n - 1, count, expires);
    }
    FailureCounts(p, before.account, time, count + n - 1, expires);
  }

  /** When the last of `n` failures is recorded by attempts that come back, `k` at a time, as soon as the lock ends. */
  function LastAt(p: Policy, k: nat, n: nat): nat
    requires k >= 1
  {
    Waits(k, n - k - p.maxFailures + 1)
  }

  function Wave(time: int, n: nat): seq<LoginStep> {
    Checks(time, n) + Failures(time, n)
  }

  function Persistent(p: Policy, k: nat, n: nat): seq<LoginStep>
    requires k >= 1
  {
    if n == 0 then []
    else if n <= k then Wave(LastAt(p, k, n), n)
    else Persistent(p, k, n - k) + Wave(LastAt(p, k, n), k)
  }

  ghost predicate NoneAfter(steps: seq<LoginStep>, time: int) {
    forall i :: 0 <= i < |steps| ==> steps[i].time <= time
  }

  lemma WaveInSequence(steps: seq<LoginStep>, time: int, n: nat)
    requires InSequence(steps) && NoneAfter(steps, time)
    ensures InSequence(steps + Wave(time, n)) && NoneAfter(steps + Wave(time, n), time)
  {
    var wave := Wave(time, n);
    assert forall i :: 0 <= i < |wave| ==> wave[i].time == time;
    var all := steps + wave;
    assert forall i :: |steps| <= i < |all| ==> all[i].time == time;
  }

  lemma {:induction false} PersistentInSequence(p: Policy, k: nat, n: nat)
    requires k >= 1
    ensures InSequence(Persistent(p, k, n)) && NoneAfter(Persistent(p, k, n), LastAt(p, k, n))
    decreases n
  {
    if n > k {
      PersistentInSequence(p, k, n - k);
      WaitsGrow(k, n - k - k - p.maxFailures + 1, n - k - p.maxFailures + 1);
      WaveInSequence(Persistent(p, k, n - k), LastAt(p, k, n), k);
    } else if n > 0 {
      WaveInSequence([], LastAt(p, k, n), n);
      assert [] + Wave(LastAt(p, k, n), n) == Wave(LastAt(p, k, n), n);
    }
  }

  lemma WaveSplits(p: Policy, k: nat, l: Traffic, time: int, n: nat)
    requires n <= k && l.inFlight == 0 && !Locked(l.account, time)
    ensures After(p, k, l, Wave(time, n)) == After(p, k, Traffic(l.account, n), Failures(time, n))
  {
    AfterMore(p, k, l, Checks(time, n), Failures(time, n));
    ChecksPass(p, k, l, time, n);
  }

  lemma WaveRecords(p: Policy, k: nat, l: Traffic, time: int, n: nat, count: nat, expires: int)
    requires Sensible(p) && 1 <= n <= k && l.inFlight == 0 && !Locked(l.account, time)
    requires Counting(p, l.account, time, count, expires)
    ensures var m := After(p, k, l, Wave(time, n));
            m.inFlight == 0 && Recorded(p, m.account, time, count + n, expires)
  {
    WaveSplits(p, k, l, time, n);
    FailuresCount(p, k, Traffic(l.account, n), time, n, count, expires);
  }

  lemma LockEnds(p: Policy, k: nat, n: nat, a: Account)
    requires k >= 1 && n > k && Recorded(p, a, LastAt(p, k, n - k), n - k, p.lockoutSeconds)
    ensures !Locked(a, LastAt(p, k, n))
  {
    if n - k >= p.maxFailures {
      assert LastAt(p, k, n) == 60 * Doubled(n - k - p.maxFailures) + LastAt(p, k, n - k);
    }
  }

  /** Where the persistent attempts leave the account. */
  ghost predicate Arrived(p: Policy, k: nat, n: nat, l: Traffic)
    requires k >= 1
  {
    l.inFlight == 0 && Recorded(p, l.account, LastAt(p, k, n), n, p.lockoutSeconds)
  }

  lemma NextWave(p: Policy, k: nat, n: nat, l: Traffic)
    requires Sensible(p) && k >= 1 && n > k && LastAt(p, k, n) < p.lockoutSeconds && Arrived(p, k, n - k, l)
    ensures Arrived(p, k, n, After(p, k, l, Wave(LastAt(p, k, n), k)))
  {
    LockEnds(p, k, n, l.account);
    WaveRecords(p, k, l, LastAt(p, k, n), k, n - k, p.lockoutSeconds);
  }

  lemma {:induction false} PersistentFailures(p: Policy, k: nat, n: nat)
    requires Sensible(p) && k >= 1 && n >= 1 && LastAt(p, k, n) < p.lockoutSeconds
    ensures Arrived(p, k, n, After(p, k, IDLE, Persistent(p, k, n)))
    decreases n
  {
    if n <= k {
      WaveRecords(p, k, IDLE, LastAt(p, k, n), n, 0, p.lockoutSeconds);
    } else {
      var rest, wave := Persistent(p, k, n - k), Wave(LastAt(p, k, n), k);
      WaitsGrow(k, n - k - k - p.maxFailures + 1, n - k - p.maxFailures + 1);
      PersistentFailures(p, k, n - k);
      NextWave(p, k, n, After(p, k, IDLE, rest));
      AfterMore(p, k, IDLE, rest, wave);
    }
  }

  ghost predicate CanFail(p: Policy, k: nat, n: nat) {
    exists steps :: InSequence(steps) && Counted(After(p, k, IDLE, steps), n)
  }

  predicate Counted(l: Traffic, n: nat) {
    l.account.failures.Some? && l.account.failures.value.count == n
  }

  /**
   With at most `k` attempts at once between the lock check and the verdict, a number of failures
   in one life of the counter is possible if and only if it is within the bound.
   */
  lemma FailuresExactly(p: Policy, k: nat, extra: nat, n: nat)
    requires Sensible(p) && k >= 1 && ExtraFailures(p, k, extra) && n >= 1
    ensures CanFail(p, k, n) <==> n <= p.maxFailures - 1 + extra + k
  {
    if n <= p.maxFailures - 1 + extra + k {
      WaitsGrow(k, n - k - p.maxFailures + 1, extra);
      PersistentInSequence(p, k, n);
      PersistentFailures(p, k, n);
      assert Counted(After(p, k, IDLE, Persistent(p, k, n)), n);
    } else if CanFail(p, k, n) {
      var steps :| InSequence(steps) && Counted(After(p, k, IDLE, steps), n);
      FailuresBounded(p, k, steps, extra);
    }
  }

  /** One attempt at a time: the waits are a minute, two, four and so on. */
  lemma {:induction false} WaitsAlone(extra: nat)
    ensures Waits(1, extra) == 60 * (Doubled(extra) - 1)
  {
    if extra > 0 {
      WaitsAlone(extra - 1);
    }
  }

  // ---------------------------------------------------------------- the store

  lemma HitCounts(times: seq<int>, window: nat, now: int)
    ensures CounterAfter(times + [now], window) == Some(Incremented(CounterAfter(times, window), window, now))
  {
    assert (times + [now])[..|times|] == times;
  }

  function Lookup<T>(table: map<string, T>, key: string): Option<T> {
    if key in table then Some(table[key]) else None
  }

  datatype LoginAnswer = LockedOut | Rejected | Accepted

  class Store {
    var counters: map<string, Counter>
    var locks: map<string, int>

    constructor ()
      ensures counters == map[] && locks == map[]
    {
      counters, locks := map[], map[];
    }

    ghost function AccountOf(key: string): Account
      reads this
    {
      Account(Lookup(counters, key), Lookup(locks, key))
    }

    /** Increment a counter, and give it an expiry if it has none. */
    method IncrWithTtl(key: string, ttl: nat, now: int) returns (count: nat)
      modifies this`counters
      ensures counters == old(counters)[key := Incremented(Lookup(old(counters), key), ttl, now)]
      ensures count == counters[key].count
    {
      if key in counters && counters[key].expires <= now {
        counters := counters - {key};
      }
      var missing := key !in counters;
      count := 1 + if missing then 0 else counters[key].count;
      counters := counters[key := Counter(count, if missing then now + ttl else counters[key].expires)];
    }

    /** A hit is let through exactly when the fixed-window rule says so for the hits so far. */
    method Hit(key: string, limit: int, window: nat, now: int, ghost times: seq<int>) returns (allowed: bool)
      requires Lookup(counters, key) == CounterAfter(times, window)
      modifies this`counters
      ensures Lookup(counters, key) == CounterAfter(times + [now], window)
      ensures allowed == Allowed(times + [now], limit, window)
      ensures forall other :: other != key ==> Lookup(counters, other) == Lookup(old(counters), other)
    {
      HitCounts(times, window, now);
      var count := IncrWithTtl(key, window, now);
      allowed := count <= limit;
    }

    method IsLocked(key: string, now: int) returns (locked: bool)
      ensures locked == Locked(AccountOf(key), now)
    {
      locked := key in locks && now < locks[key];
    }

    method RecordFailure(p: Policy, key: string, now: int)
      modifies this
      ensures AccountOf(key) == RecordedFailure(p, old(AccountOf(key)), now)
      ensures forall other :: other != key ==> AccountOf(other) == old(AccountOf(other))
    {
      var failures := IncrWithTtl(key, p.lockoutSeconds, now);
      if failures >= p.maxFailures {
        var duration := Least(p.lockoutSeconds, 60 * Doubled(failures - p.maxFailures));
        locks := locks[key := now + duration];
      }
    }

    method Clear(key: string)
      modifies this
      ensures AccountOf(key) == Account(None, None)
      ensures forall other :: other != key ==> AccountOf(other) == old(AccountOf(other))
    {
      counters, locks := counters - {key}, locks - {key};
    }

    /** One login attempt: the lock check, and the password's verdict if it was let through. */
    method Login(p: Policy, key: string, passwordOk: bool, now: int) returns (answer: LoginAnswer)
      modifies this
      ensures var checked := Stepped(p, 1, Traffic(old(AccountOf(key)), 0), Check(now));
              AccountOf(key) == Stepped(p, 1, checked, Finish(now, passwordOk)).account
      ensures forall other :: other != key ==> AccountOf(other) == old(AccountOf(other))
      ensures answer == LockedOut <==> Locked(old(AccountOf(key)), now)
      ensures answer == Accepted <==> !Locked(old(AccountOf(key)), now) && passwordOk
    {
      var locked := IsLocked(key, now);
      if locked {
        return LockedOut;
      }
      if !passwordOk {
        RecordFailure(p, key, now);
        return Rejected;
      }
      Clear(key);
      answer := Accepted;
    }
  }
}
