/**
 The onboarding checklist of one tenant. Completing a step takes the tenant's advisory lock, reads
 which steps are done, adds a row, and announces completion with the last missing step. As with
 the plan limits, the lock can be left out of the protocol to see what it is there for.
 */
module Onboarding {
  import opened Base

  type TxId = nat

  /** Uncommitted rows and uncommitted announcements. */
  datatype Tx = Tx(added: set<string>, announced: nat)

  /** `announced` counts the completion events of committed transactions. */
  datatype State = State(done: set<string>, announced: nat, holder: Option<TxId>, txs: map<TxId, Tx>)

  datatype Step =
    | Begin(tx: TxId)
    | Lock(tx: TxId)
    | Complete(tx: TxId, step: string)
    | Commit(tx: TxId)
    | Rollback(tx: TxId)

  function Ended(s: State, t: TxId): State {
    s.(txs := s.txs - {t}, holder := if s.holder == Some(t) then None else s.holder)
  }

  /** What completing a step adds to a transaction that sees the given steps done. */
  function Completing(steps: set<string>, seen: set<string>, tx: Tx, step: string): Tx {
    if step !in steps || step in seen then tx
    else Tx(tx.added + {step}, tx.announced + if seen + {step} >= steps then 1 else 0)
  }

  /** A committed step row is unique, so a second insert of it fails. */
  function Committed(s: State, t: TxId): State
    requires t in s.txs
  {
    if s.txs[t].added !! s.done then
      Ended(s.(done := s.done + s.txs[t].added, announced := s.announced + s.txs[t].announced), t)
    else Ended(s, t)
  }

  function Apply(locking: bool, steps: set<string>, s: State, step: Step): State {
    match step
    case Begin(t) => if t in s.txs then s else s.(txs := s.txs[t := Tx({}, 0)])
    case Lock(t) => if t in s.txs && s.holder == None then s.(holder := Some(t)) else s
    case Complete(t, key) =>
      if t in s.txs && (locking ==> s.holder == Some(t))
      then s.(txs := s.txs[t := Completing(steps, s.done + s.txs[t].added, s.txs[t], key)])
      else s
    case Commit(t) => if t in s.txs then Committed(s, t) else s
    case Rollback(t) => if t in s.txs then Ended(s, t) else s
  }

  function Run(locking: bool, steps: set<string>, s: State, run: seq<Step>): State {
    if run == [] then s
    else Apply(locking, steps, Run(locking, steps, s, run[..|run| - 1]), run[|run| - 1])
  }

  /** A tenant that has done some of the steps, and not all. */
  function Start(done: set<string>): State {
    State(done, 0, None, map[])
  }

  /** Completion has been announced exactly once if all steps are done, and not before. */
  ghost predicate AnnouncedOnce(steps: set<string>, s: State) {
    s.announced == (if s.done >= steps then 1 else 0)
  }

  // ---------------------------------------------------------------- with the lock

  ghost predicate Inv(steps: set<string>, s: State) {
    && AnnouncedOnce(steps, s)
    && (forall t :: t in s.txs && s.txs[t] != Tx({}, 0) ==>
          && s.holder == Some(t)
          && s.txs[t].added !! s.done && s.txs[t].added != {}
          && s.announced + s.txs[t].announced == (if s.done + s.txs[t].added >= steps then 1 else 0))
  }

  lemma CompleteKeeps(steps: set<string>, s: State, t: TxId, key: string)
    requires steps != {} && Inv(steps, s) && t in s.txs && s.holder == Some(t)
    ensures Inv(steps, Apply(true, steps, s, Complete(t, key)))
  {
    var tx := s.txs[t];
    var next := Completing(steps, s.done + tx.added, tx, key);
    if next != tx {
      assert s.done + next.added == s.done + tx.added + {key};
      assert !(s.done + tx.added >= steps);
      assert tx == Tx({}, 0) ==> s.done + tx.added == s.done;
    }
  }

  lemma ApplyKeeps(steps: set<string>, s: State, step: Step)
    requires steps != {} && Inv(steps, s)
    ensures Inv(steps, Apply(true, steps, s, step))
  {
    match step
    case Complete(t, key) =>
      if t in s.txs && s.holder == Some(t) {
        CompleteKeeps(steps, s, t, key);
      }
    case Commit(t) =>
      if t in s.txs {
        assert s.txs[t] == Tx({}, 0) ==> s.done + s.txs[t].added == s.done;
      }
    case _ =>
  }

  lemma {:induction false} RunKeeps(steps: set<string>, s: State, run: seq<Step>)
    requires steps != {} && Inv(steps, s)
    ensures Inv(steps, Run(true, steps, s, run))
  {
    if run != [] {
      RunKeeps(steps, s, run[..|run| - 1]);
      ApplyKeeps(steps, Run(true, steps, s, run[..|run| - 1]), run[|run| - 1]);
    }
  }

  /** However the transactions interleave, completion is announced exactly once. */
  lemma AnnouncedExactlyOnce(steps: set<string>, done: set<string>, run: seq<Step>)
    requires steps != {} && !(done >= steps)
    ensures AnnouncedOnce(steps, Run(true, steps, Start(done), run))
  {
    RunKeeps(steps, Start(done), run);
  }

  lemma Four(steps: set<string>, s: State, a: Step, b: Step, c: Step, d: Step)
    ensures Run(true, steps, s, [a, b, c, d])
            == Apply(true, steps, Apply(true, steps, Apply(true, steps, Apply(true, steps, s, a), b), c), d)
  {
    var four, three, two, one := [a, b, c, d], [a, b, c], [a, b], [a];
    assert four[..3] == three && three[..2] == two && two[..1] == one && one[..0] == [];
    assert Run(true, steps, s, []) == s;
    assert Run(true, steps, s, one) == Apply(true, steps, s, a);
    assert Run(true, steps, s, two) == Apply(true, steps, Apply(true, steps, s, a), b);
    assert Run(true, steps, s, three) == Apply(true, steps, Run(true, steps, s, two), c);
  }

  /** A step completed on its own: it is done afterwards, announced if it was the last, and the lock is free again. */
  lemma CompletedAlone(steps: set<string>, s: State, t: TxId, key: string)
    requires s.holder.None? && t !in s.txs
    ensures Run(true, steps, s, [Begin(t), Lock(t), Complete(t, key), Commit(t)])
            == if key in steps && key !in s.done
               then s.(done := s.done + {key}, announced := s.announced + if s.done + {key} >= steps then 1 else 0)
               else s
  {
    Four(steps, s, Begin(t), Lock(t), Complete(t, key), Commit(t));
    var tx := Completing(steps, s.done, Tx({}, 0), key);
    assert s.done + {} == s.done && {} + {key} == {key};
    assert s.txs[t := Tx({}, 0)][t := tx] - {t} == s.txs && s.txs[t := Tx({}, 0)] - {t} == s.txs;
  }

  /** One that rolls back leaves nothing. */
  lemma RolledBackAlone(steps: set<string>, s: State, t: TxId, key: string)
    requires s.holder.None? && t !in s.txs
    ensures Run(true, steps, s, [Begin(t), Lock(t), Complete(t, key), Rollback(t)]) == s
  {
    Four(steps, s, Begin(t), Lock(t), Complete(t, key), Rollback(t));
    var tx := Completing(steps, s.done, Tx({}, 0), key);
    assert s.done + {} == s.done;
    assert s.txs[t := Tx({}, 0)][t := tx] - {t} == s.txs && s.txs[t := Tx({}, 0)] - {t} == s.txs;
  }

  // ---------------------------------------------------------------- without the lock

  lemma {:induction false} RunOn(steps: set<string>, s: State, first: Step, rest: seq<Step>)
    ensures Run(false, steps, s, [first] + rest) == Run(false, steps, Apply(false, steps, s, first), rest)
  {
    var all := [first] + rest;
    if rest == [] {
      assert all == [first] && all[..0] == [];
    } else {
      RunOn(steps, s, first, rest[..|rest| - 1]);
      assert all[..|all| - 1] == [first] + rest[..|rest| - 1];
    }
  }

  /** The last two steps, completed at the same time: neither sees the other. */
  lemma NobodyAnnounces(steps: set<string>, a: string, b: string) returns (run: seq<Step>)
    requires a in steps && b in steps && a != b
    ensures var s := Run(false, steps, Start(steps - {a, b}), run); s.done == steps && s.announced == 0
  {
    var done := steps - {a, b};
    var s1 := State(done, 0, None, map[0 := Tx({}, 0)]);
    var s2 := State(done, 0, None, map[0 := Tx({}, 0), 1 := Tx({}, 0)]);
    var s3 := State(done, 0, None, map[0 := Tx({a}, 0), 1 := Tx({}, 0)]);
    var s4 := State(done, 0, None, map[0 := Tx({a}, 0), 1 := Tx({b}, 0)]);
    var s5 := State(done + {a}, 0, None, map[1 := Tx({b}, 0)]);
    var s6 := State(steps, 0, None, map[]);
    OneMissing(steps, done, a, b);
    OneMissing(steps, done, b, a);
    assert Apply(false, steps, Start(done), Begin(0)) == s1 && Apply(false, steps, s1, Begin(1)) == s2;
    assert Apply(false, steps, s2, Complete(0, a)) == s3 && Apply(false, steps, s3, Complete(1, b)) == s4;
    assert Ended(s4.(done := done + {a}), 0).txs == s5.txs && Apply(false, steps, s4, Commit(0)) == s5;
    assert done + {a} + {b} == steps && Apply(false, steps, s5, Commit(1)) == s6;
    var p6 := [];
    var p5 := [Commit(1)] + p6;
    var p4 := [Commit(0)] + p5;
    var p3 := [Complete(1, b)] + p4;
    var p2 := [Complete(0, a)] + p3;
    var p1 := [Begin(1)] + p2;
    run := [Begin(0)] + p1;
    RunOn(steps, Start(done), Begin(0), p1);
    RunOn(steps, s1, Begin(1), p2);
    RunOn(steps, s2, Complete(0, a), p3);
    RunOn(steps, s3, Complete(1, b), p4);
    RunOn(steps, s4, Commit(0), p5);
    RunOn(steps, s5, Commit(1), p6);
  }

  lemma OneMissing(steps: set<string>, done: set<string>, a: string, b: string)
    requires a in steps && b in steps && a != b && done == steps - {a, b}
    ensures Completing(steps, done + {}, Tx({}, 0), a) == Tx({a}, 0)
  {
    assert done + {} == done;
    assert b !in done + {a};
    assert {} + {a} == {a};
  }

  /** With a single step on the list the unique row stands in for the lock. */
  ghost predicate SingleInv(step: string, s: State) {
    && s.done <= {step} && s.announced == (if step in s.done then 1 else 0)
    && (forall t :: t in s.txs ==> s.txs[t] == Tx({}, 0) || s.txs[t] == Tx({step}, 1))
  }

  lemma SingleKeeps(step: string, s: State, next: Step)
    requires SingleInv(step, s)
    ensures SingleInv(step, Apply(false, {step}, s, next))
  {
    match next
    case Complete(t, key) =>
      if t in s.txs {
        assert s.txs[t] == Tx({step}, 1) ==> step in s.done + s.txs[t].added;
      }
    case _ =>
  }

  lemma {:induction false} SingleRuns(step: string, s: State, run: seq<Step>)
    requires SingleInv(step, s)
    ensures SingleInv(step, Run(false, {step}, s, run))
  {
    if run != [] {
      SingleRuns(step, s, run[..|run| - 1]);
      SingleKeeps(step, Run(false, {step}, s, run[..|run| - 1]), run[|run| - 1]);
    }
  }

  ghost predicate AlwaysOnce(locking: bool, steps: set<string>) {
    forall done, run :: done < steps ==> AnnouncedOnce(steps, Run(locking, steps, Start(done), run))
  }

  lemma OtherStep(steps: set<string>, a: string) returns (b: string)
    requires a in steps && |steps| > 1
    ensures b in steps && b != a
  {
    assert |steps - {a}| == |steps| - 1;
    b :| b in steps - {a};
  }

  /** Every run announces completion exactly once if and only if the lock is taken or there is one step. */
  lemma AnnouncedExactly(locking: bool, steps: set<string>)
    requires steps != {}
    ensures AlwaysOnce(locking, steps) <==> locking || |steps| == 1
  {
    var a :| a in steps;
    if locking {
      forall done, run | done < steps ensures AnnouncedOnce(steps, Run(locking, steps, Start(done), run)) {
        AnnouncedExactlyOnce(steps, done, run);
      }
    } else if |steps| == 1 {
      OnlyOne(steps, a);
      forall done, run | done < steps ensures AnnouncedOnce(steps, Run(locking, steps, Start(done), run)) {
        SingleRuns(a, Start(done), run);
      }
    } else {
      var b := OtherStep(steps, a);
      var run := NobodyAnnounces(steps, a, b);
      assert steps - {a, b} < steps;
    }
  }

  lemma OnlyOne(steps: set<string>, a: string)
    requires a in steps && |steps| == 1
    ensures steps == {a}
  {
    assert |steps - {a}| == 0;
  }

  // ---------------------------------------------------------------- the service

  datatype StepView = StepView(key: string, completed: bool)

  datatype Progress = Progress(steps: seq<StepView>, completedCount: nat, total: nat, isComplete: bool)

  function DoneCount(steps: seq<StepView>): (n: nat)
    ensures n <= |steps|
    ensures n == |steps| <==> forall i :: 0 <= i < |steps| ==> steps[i].completed
  {
    if steps == [] then 0
    else DoneCount(steps[..|steps| - 1]) + if steps[|steps| - 1].completed then 1 else 0
  }

  function ToProgress(steps: seq<string>, completed: set<string>): Progress {
    var views := seq(|steps|, i requires 0 <= i < |steps| => StepView(steps[i], steps[i] in completed));
    var count := DoneCount(views);
    Progress(views, count, |steps|, steps != [] && count == |steps|)
  }

  function Elements(steps: seq<string>): set<string> {
    set step | step in steps
  }

  /** The checklist is shown as complete exactly when it has steps and all of them are done. */
  lemma ShownCompleteExactly(steps: seq<string>, completed: set<string>)
    ensures ToProgress(steps, completed).isComplete <==> steps != [] && completed >= Elements(steps)
  {
    var views := ToProgress(steps, completed).steps;
    if completed >= Elements(steps) {
      forall i | 0 <= i < |views| ensures views[i].completed {
        assert steps[i] in Elements(steps);
      }
    } else {
      var missing :| missing in Elements(steps) && missing !in completed;
      var i :| 0 <= i < |steps| && steps[i] == missing;
      assert !views[i].completed;
    }
  }

  class Service {
    const steps: seq<string>
    var rows: set<string>
    var announced: nat

    constructor (steps: seq<string>, rows: set<string>)
      ensures this.steps == steps && this.rows == rows && announced == 0
    {
      this.steps, this.rows, announced := steps, rows, 0;
    }

    /** Complete one step in the running transaction, which holds the lock. */
    method CompleteStep(step: string) returns (r: Outcome<Progress>)
      modifies this
      ensures step !in steps <==> r == Err(InvariantViolation)
      ensures r.Err? ==> rows == old(rows) && announced == old(announced)
      ensures r.Ok? ==> r.value == ToProgress(steps, rows) && rows == old(rows) + {step}
      ensures r.Ok? ==> Completing(Elements(steps), old(rows), Tx({}, old(announced)), step) ==
                        Tx(rows - old(rows), announced)
    {
      if step !in steps {
        return Err(InvariantViolation);
      }
      if step in rows {
        assert rows + {step} == rows && rows - rows == {};
        return Ok(ToProgress(steps, rows));
      }
      rows := rows + {step};
      if steps != [] && Elements(steps) <= rows {
        announced := announced + 1;
      }
      assert rows - old(rows) == {} + {step};
      r := Ok(ToProgress(steps, rows));
    }
  }
}
