/**
 The circuit breaker and the retrying call around it. Times are readings of a monotonic clock;
 the backoff between attempts only moves them.
 */
module Breaker {

  datatype Mode = Closed | Open | HalfOpen

  datatype Circuit = Circuit(threshold: int, recovery: real, failures: nat, openedAt: real, mode: Mode)

  function New(threshold: int, recovery: real): Circuit {
    Circuit(threshold, recovery, 0, 0.0, Closed)
  }

  /** Asking for permission moves an open circuit whose recovery time is over to half-open. */
  function Asked(c: Circuit, now: real): Circuit {
    if c.mode == Open && now - c.openedAt >= c.recovery then c.(mode := HalfOpen) else c
  }

  predicate Lets(c: Circuit, now: real) {
    Asked(c, now).mode != Open
  }

  function Succeeded(c: Circuit): Circuit {
    c.(failures := 0, mode := Closed)
  }

  function Failed(c: Circuit, now: real): Circuit {
    if c.mode == HalfOpen || c.failures + 1 >= c.threshold
    then c.(failures := c.failures + 1, mode := Open, openedAt := now)
    else c.(failures := c.failures + 1)
  }

  // ---------------------------------------------------------------- any interleaving of callers

  datatype Event = Ask(now: real) | Success | Failure(now: real)

  function Happened(c: Circuit, e: Event): Circuit {
    match e
    case Ask(now) => Asked(c, now)
    case Success => Succeeded(c)
    case Failure(now) => Failed(c, now)
  }

  function Run(c: Circuit, events: seq<Event>): Circuit {
    if events == [] then c else Happened(Run(c, events[..|events| - 1]), events[|events| - 1])
  }

  /** The failures reported since the last success. */
  function Streak(events: seq<Event>): nat {
    if events == [] then 0
    else match events[|events| - 1]
      case Ask(_) => Streak(events[..|events| - 1])
      case Success => 0
      case Failure(_) => Streak(events[..|events| - 1]) + 1
  }

  ghost predicate LastFailureAt(events: seq<Event>, time: real) {
    exists i :: 0 <= i < |events| && events[i] == Failure(time) && forall j :: i < j < |events| ==> events[j].Ask?
  }

  ghost predicate Tidy(c: Circuit) {
    c.mode == Closed <==> c.failures < c.threshold
  }

  lemma LastFailureStays(events: seq<Event>, e: Event, time: real)
    requires e.Ask? && LastFailureAt(events, time)
    ensures LastFailureAt(events + [e], time)
  {
    var i :| 0 <= i < |events| && events[i] == Failure(time) && forall j :: i < j < |events| ==> events[j].Ask?;
    assert (events + [e])[i] == Failure(time);
  }

  /**
   However the callers interleave, the circuit is closed exactly below the threshold of failures
   in a row, and an open one was opened by the last failure.
   */
  lemma {:induction false} ClosedExactly(threshold: int, recovery: real, events: seq<Event>)
    requires threshold >= 1
    ensures var c := Run(New(threshold, recovery), events);
            && Tidy(c) && c.threshold == threshold && c.recovery == recovery
            && c.failures == Streak(events)
            && (c.mode != Closed ==> LastFailureAt(events, c.openedAt))
  {
    if events != [] {
      var before, e := events[..|events| - 1], events[|events| - 1];
      ClosedExactly(threshold, recovery, before);
      assert before + [e] == events;
      var c := Run(New(threshold, recovery), before);
      if e.Failure? {
        assert events[|events| - 1] == Failure(e.now);
      } else if e.Ask? && c.mode != Closed {
        LastFailureStays(before, e, c.openedAt);
      }
    }
  }

  /** A threshold below one is exactly what breaks the rule: the new circuit is closed already. */
  lemma TidyExactly(threshold: int, recovery: real)
    ensures (forall events :: Tidy(Run(New(threshold, recovery), events))) <==> threshold >= 1
  {
    if threshold >= 1 {
      forall events ensures Tidy(Run(New(threshold, recovery), events)) {
        ClosedExactly(threshold, recovery, events);
      }
    } else {
      assert !Tidy(Run(New(threshold, recovery), []));
    }
  }

  // ---------------------------------------------------------------- a target that always fails

  /** One attempt of a sequential caller: when it asks, and when the operation, if run, fails. */
  datatype Try = Try(start: real, end: real)

  ghost predicate OneAfterAnother(tries: seq<Try>) {
    && (forall i :: 0 <= i < |tries| ==> tries[i].start <= tries[i].end)
    && (forall i, j :: 0 <= i < j < |tries| ==> tries[i].end <= tries[j].start)
  }

  function AfterTry(c: Circuit, t: Try): Circuit {
    if Lets(c, t.start) then Failed(Asked(c, t.start), t.end) else c
  }

  function AfterTries(c: Circuit, tries: seq<Try>): Circuit {
    if tries == [] then c else AfterTry(AfterTries(c, tries[..|tries| - 1]), tries[|tries| - 1])
  }

  /** The attempts in which the operation really ran. */
  function Ran(c: Circuit, tries: seq<Try>): seq<Try> {
    if tries == [] then []
    else
      var before := tries[..|tries| - 1];
      if Lets(AfterTries(c, before), tries[|tries| - 1].start) then Ran(c, before) + [tries[|tries| - 1]]
      else Ran(c, before)
  }

  /** The circuit opens with the run that meets the threshold; then each run waits out the recovery. */
  ghost predicate Spaced(threshold: int, recovery: real, ran: seq<Try>) {
    forall k :: 0 <= k && threshold - 1 <= k < |ran| - 1 ==> ran[k].end + recovery <= ran[k + 1].start
  }

  ghost predicate Tracked(threshold: int, recovery: real, ran: seq<Try>, c: Circuit) {
    && c.threshold == threshold && c.recovery == recovery && c.failures == |ran|
    && (|ran| < threshold ==> c.mode == Closed)
    && (|ran| >= threshold ==> c.mode == Open && |ran| > 0 && c.openedAt == ran[|ran| - 1].end)
  }

  lemma {:induction false} RunsAreSpaced(threshold: int, recovery: real, tries: seq<Try>)
    requires threshold >= 1
    ensures Tracked(threshold, recovery, Ran(New(threshold, recovery), tries),
                    AfterTries(New(threshold, recovery), tries))
    ensures Spaced(threshold, recovery, Ran(New(threshold, recovery), tries))
  {
    if tries != [] {
      RunsAreSpaced(threshold, recovery, tries[..|tries| - 1]);
    }
  }

  lemma {:induction false} RunsAreOrdered(c: Circuit, tries: seq<Try>)
    requires OneAfterAnother(tries)
    ensures OneAfterAnother(Ran(c, tries))
    ensures forall r :: r in Ran(c, tries) ==> r in tries
  {
    if tries != [] {
      var before := tries[..|tries| - 1];
      RunsAreOrdered(c, before);
      forall r | r in before ensures r.end <= tries[|tries| - 1].start {
        var i :| 0 <= i < |before| && before[i] == r;
        assert tries[i].end <= tries[|tries| - 1].start;
      }
    }
  }

  lemma OneMore(n: nat, recovery: real)
    ensures ((n + 1) as real) * recovery == (n as real) * recovery + recovery
  {
    assert (n + 1) as real == n as real + 1.0;
  }

  lemma {:induction false} ManyRecoveries(threshold: int, recovery: real, ran: seq<Try>, i: nat, n: nat)
    requires Spaced(threshold, recovery, ran) && OneAfterAnother(ran)
    requires threshold - 1 <= i && 1 <= n && i + n < |ran|
    ensures ran[i].end + (n as real) * recovery <= ran[i + n].start
    decreases n
  {
    if n > 1 {
      ManyRecoveries(threshold, recovery, ran, i, n - 1);
      var k := i + n - 1;
      assert ran[k].end + recovery <= ran[k + 1].start && ran[k].start <= ran[k].end;
      OneMore(n - 1, recovery);
    }
  }

  /**
   A sequential caller of a target that always fails runs it freely below the threshold; from the
   opening on, n further runs take at least n recovery times.
   */
  lemma DeadTargetIsSpared(threshold: int, recovery: real, tries: seq<Try>, i: nat, n: nat)
    requires threshold >= 1 && OneAfterAnother(tries)
    ensures var c, ran := AfterTries(New(threshold, recovery), tries), Ran(New(threshold, recovery), tries);
            && (c.mode == Closed <==> |ran| < threshold)
            && (threshold - 1 <= i && 1 <= n && i + n < |ran| ==>
                  ran[i].end + (n as real) * recovery <= ran[i + n].start)
  {
    var ran := Ran(New(threshold, recovery), tries);
    RunsAreSpaced(threshold, recovery, tries);
    RunsAreOrdered(New(threshold, recovery), tries);
    if threshold - 1 <= i && 1 <= n && i + n < |ran| {
      ManyRecoveries(threshold, recovery, ran, i, n);
    }
  }

  // ---------------------------------------------------------------- one probe at a time

  ghost predicate OnlyAsks(events: seq<Event>) {
    forall i :: 0 <= i < |events| ==> events[i].Ask?
  }

  /** The recovery time of an open circuit is over. */
  predicate Ripe(c: Circuit, now: real) {
    now - c.openedAt >= c.recovery
  }

  ghost predicate AnyRipe(c: Circuit, asks: seq<Event>)
    requires OnlyAsks(asks)
  {
    exists i :: 0 <= i < |asks| && Ripe(c, asks[i].now)
  }

  lemma AnyRipeMore(c: Circuit, asks: seq<Event>)
    requires OnlyAsks(asks) && asks != []
    ensures var rest := asks[..|asks| - 1];
            AnyRipe(c, asks) <==> AnyRipe(c, rest) || Ripe(c, asks[|asks| - 1].now)
  {
    var rest := asks[..|asks| - 1];
    if AnyRipe(c, rest) {
      var i :| 0 <= i < |rest| && Ripe(c, rest[i].now);
      assert Ripe(c, asks[i].now);
    }
  }

  lemma {:induction false} AskedAfterAsks(c: Circuit, asks: seq<Event>)
    requires c.mode == Open && OnlyAsks(asks)
    ensures Run(c, asks) == if AnyRipe(c, asks) then c.(mode := HalfOpen) else c
  {
    if asks != [] {
      AskedAfterAsks(c, asks[..|asks| - 1]);
      AnyRipeMore(c, asks);
    }
  }

  /** While nobody reports, an open circuit lets a call through exactly if some ask so far was after the recovery. */
  lemma OpenLetsExactly(c: Circuit, asks: seq<Event>, now: real)
    requires c.mode == Open && OnlyAsks(asks)
    ensures Lets(Run(c, asks), now) <==> Ripe(c, now) || AnyRipe(c, asks)
  {
    AskedAfterAsks(c, asks);
  }

  /** The calls that were let through. */
  function LetCount(c: Circuit, events: seq<Event>): nat {
    if events == [] then 0
    else
      var rest, last := events[..|events| - 1], events[|events| - 1];
      LetCount(c, rest) + if last.Ask? && Lets(Run(c, rest), last.now) then 1 else 0
  }

  lemma {:induction false} LetCountRipe(c: Circuit, asks: seq<Event>)
    requires c.mode == Open && OnlyAsks(asks)
    ensures LetCount(c, asks) == 0 <==> !AnyRipe(c, asks)
  {
    if asks != [] {
      var rest := asks[..|asks| - 1];
      LetCountRipe(c, rest);
      AnyRipeMore(c, asks);
      OpenLetsExactly(c, rest, asks[|asks| - 1].now);
    }
  }

  /**
   An open circuit lets at most one probe through before it hears of it if and only if nobody asks
   again once the recovery time is over and somebody has asked.
   */
  lemma OneProbeExactly(c: Circuit, asks: seq<Event>)
    requires c.mode == Open && OnlyAsks(asks)
    ensures LetCount(c, asks) <= 1 <==> forall i :: 0 <= i < |asks| - 1 ==> !Ripe(c, asks[i].now)
  {
    if asks != [] {
      var rest := asks[..|asks| - 1];
      LetCountRipe(c, rest);
      OpenLetsExactly(c, rest, asks[|asks| - 1].now);
      assert AnyRipe(c, rest) <==> exists i :: 0 <= i < |asks| - 1 && Ripe(c, asks[i].now) by {
        if i :| 0 <= i < |asks| - 1 && Ripe(c, asks[i].now) {
          assert Ripe(c, rest[i].now);
        }
      }
    }
  }

  function Failures(n: nat): (events: seq<Event>)
    ensures |events| == n
  {
    if n == 0 then [] else Failures(n - 1) + [Failure(0.0)]
  }

  lemma {:induction false} FailuresOpen(threshold: int, recovery: real, n: nat)
    requires n <= threshold && threshold >= 1
    ensures Run(New(threshold, recovery), Failures(n)) ==
            Circuit(threshold, recovery, n, 0.0, if n < threshold then Closed else Open)
  {
    if n > 0 {
      FailuresOpen(threshold, recovery, n - 1);
      assert Failures(n)[..n - 1] == Failures(n - 1);
    }
  }

  /** Every circuit can get there: it opens, and two callers pass before either reports. */
  lemma TwoProbesPass(threshold: int, recovery: real) returns (events: seq<Event>)
    requires threshold >= 1
    ensures var c := Run(New(threshold, recovery), events);
            && events == Failures(threshold) && c.mode == Open
            && LetCount(c, [Ask(recovery), Ask(recovery)]) == 2
  {
    events := Failures(threshold);
    FailuresOpen(threshold, recovery, threshold);
    var c := Run(New(threshold, recovery), events);
    var asks := [Ask(recovery), Ask(recovery)];
    assert asks[..1] == [Ask(recovery)] && [Ask(recovery)][..0] == [];
    assert LetCount(c, [Ask(recovery)]) == 1;
    assert Ripe(c, asks[0].now);
    OneProbeExactly(c, asks);
  }

  // ---------------------------------------------------------------- the retrying call

  /** How one execution of the operation ends; `Other` is a cancellation or an error not worth a retry. */
  datatype Effect<T> = Value(value: T) | Transient(external: bool) | Other

  datatype Attempt<T> = Attempt(start: real, end: real, effect: Effect<T>)

  datatype Ending<T> = Returned(value: T) | CircuitOpen | GaveUp(wrapped: bool) | Propagated

  function AfterAttempt<T>(c: Circuit, a: Attempt<T>): Circuit {
    var asked := Asked(c, a.start);
    match a.effect
    case Value(_) => Succeeded(asked)
    case Transient(_) => Failed(asked, a.end)
    case Other => asked
  }

  function AfterAttempts<T>(c: Circuit, attempts: seq<Attempt<T>>): Circuit {
    if attempts == [] then c
    else AfterAttempt(AfterAttempts(c, attempts[..|attempts| - 1]), attempts[|attempts| - 1])
  }

  lemma AttemptsNext<T>(c: Circuit, attempts: seq<Attempt<T>>, i: nat)
    requires i < |attempts|
    ensures AfterAttempts(c, attempts[..i + 1]) == AfterAttempt(AfterAttempts(c, attempts[..i]), attempts[i])
  {
    assert attempts[..i + 1][..i] == attempts[..i];
  }

  /** Every one of the first attempts was let through. */
  ghost predicate LetThrough<T>(c: Circuit, attempts: seq<Attempt<T>>, runs: nat)
    requires runs <= |attempts|
  {
    forall k :: 0 <= k < runs ==> Lets(AfterAttempts(c, attempts[..k]), attempts[k].start)
  }

  ghost predicate AllTransient<T>(attempts: seq<Attempt<T>>, runs: nat)
    requires runs <= |attempts|
  {
    forall k :: 0 <= k < runs ==> attempts[k].effect.Transient?
  }

  lemma OneMoreRun<T>(c: Circuit, attempts: seq<Attempt<T>>, i: nat)
    requires i < |attempts| && LetThrough(c, attempts, i) && Lets(AfterAttempts(c, attempts[..i]), attempts[i].start)
    ensures LetThrough(c, attempts, i + 1)
    ensures AfterAttempts(c, attempts[..i + 1]) == AfterAttempt(AfterAttempts(c, attempts[..i]), attempts[i])
  {
    AttemptsNext(c, attempts, i);
  }

  /** How a call ends: only the last attempt executed can be anything but a transient failure. */
  ghost predicate EndsWith<T>(attempts: seq<Attempt<T>>, runs: nat, ending: Ending<T>, c: Circuit)
    requires runs <= |attempts|
  {
    match ending
    case Returned(v) => runs >= 1 && AllTransient(attempts, runs - 1) && attempts[runs - 1].effect == Value(v)
    case Propagated => runs >= 1 && AllTransient(attempts, runs - 1) && attempts[runs - 1].effect == Other
    case CircuitOpen => runs < |attempts| && AllTransient(attempts, runs) && !Lets(c, attempts[runs].start)
    case GaveUp(wrapped) => runs == |attempts| >= 1 && AllTransient(attempts, runs)
                            && wrapped == !attempts[runs - 1].effect.external
  }

  class Guard {
    var circuit: Circuit

    constructor (threshold: int, recovery: real)
      ensures circuit == New(threshold, recovery)
    {
      circuit := New(threshold, recovery);
    }

    method Allow(now: real) returns (ok: bool)
      modifies this
      ensures circuit == Asked(old(circuit), now) && ok == Lets(old(circuit), now)
    {
      if circuit.mode == Open && now - circuit.openedAt >= circuit.recovery {
        circuit := circuit.(mode := HalfOpen);
      }
      ok := circuit.mode != Open;
    }

    method RecordSuccess()
      modifies this
      ensures circuit == Succeeded(old(circuit))
    {
      circuit := circuit.(failures := 0, mode := Closed);
    }

    method RecordFailure(now: real)
      modifies this
      ensures circuit == Failed(old(circuit), now)
    {
      circuit := circuit.(failures := circuit.failures + 1);
      if circuit.mode == HalfOpen || circuit.failures >= circuit.threshold {
        circuit := circuit.(mode := Open, openedAt := now);
      }
    }

    /** Run an operation with the given attempts at most; `runs` of them were executed. */
    method Call<T>(attempts: seq<Attempt<T>>) returns (ending: Ending<T>, ghost runs: nat)
      requires |attempts| >= 1
      modifies this
      ensures runs <= |attempts| && LetThrough(old(circuit), attempts, runs)
      ensures circuit == AfterAttempts(old(circuit), attempts[..runs])
      ensures EndsWith(attempts, runs, ending, circuit)
    {
      var last := Transient(false);
      runs := 0;
      for i := 0 to |attempts|
        invariant runs == i
        invariant LetThrough(old(circuit), attempts, i) && AllTransient(attempts, i)
        invariant circuit == AfterAttempts(old(circuit), attempts[..i])
        invariant i > 0 ==> last == attempts[i - 1].effect
        invariant last.Transient?
      {
        var ok := Allow(attempts[i].start);
        if !ok {
          return CircuitOpen, runs;
        }
        OneMoreRun(old(circuit), attempts, i);
        runs := i + 1;
        match attempts[i].effect {
          case Other => return Propagated, runs;
          case Value(v) =>
            RecordSuccess();
            return Returned(v), runs;
          case Transient(_) =>
            RecordFailure(attempts[i].end);
            last := attempts[i].effect;
        }
      }
      ending := GaveUp(!last.external);
    }
  }
}
