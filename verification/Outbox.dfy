/**
 The notification outbox: rows are claimed under a lease, sent, and finalised. A worker that dies
 leaves its claim open, and the row falls due again when the lease ends.
 */
module Outbox {
  import opened Base

  type Id = nat

  type Positive = n: int | n >= 1 witness 1

  datatype Status = Pending | Sending | Sent | Failed | Dead

  /** `due` is the time of the next retry; while a row is being sent it is the lease deadline. */
  datatype Row = Row(status: Status, attempts: nat, due: int)

  datatype Verdict = Delivered | Retry | Undeliverable

  /** A row handed to a worker; `attempts` is the row's count with this claim. */
  datatype Claim = Claim(row: Id, attempts: Positive, deadline: int, verdict: Option<Verdict>)

  datatype Settings = Settings(leaseSeconds: nat, maxAttempts: int)

  predicate Due(row: Row, now: int) {
    row.status in {Pending, Failed, Sending} && row.due <= now
  }

  predicate Ended(status: Status) {
    status == Sent || status == Dead
  }

  function Taken(row: Row, now: int, lease: nat): Row {
    Row(Sending, row.attempts + 1, now + lease)
  }

  function TwoTo(n: nat): (r: nat)
    ensures r >= 1 && (n >= 1 ==> r >= 2) && (n >= 2 ==> r >= 4) && (n >= 3 ==> r >= 8) && (n >= 4 ==> r >= 16)
  {
    if n == 0 then 1 else 2 * TwoTo(n - 1)
  }

  function Backoff(attempts: Positive): int {
    var raw := 60 * TwoTo(attempts - 1);
    if raw < 960 then raw else 960
  }

  /** One minute, doubled with every attempt, and sixteen minutes from the fifth one on. */
  lemma BackoffSchedule(attempts: Positive)
    ensures 60 <= Backoff(attempts) <= 960
    ensures attempts < 5 ==> Backoff(attempts + 1) == 2 * Backoff(attempts)
    ensures Backoff(1) == 60 && (attempts >= 5 <==> Backoff(attempts) == 960)
  {
    assert TwoTo(0) == 1 && TwoTo(1) == 2 && TwoTo(2) == 4 && TwoTo(3) == 8 && TwoTo(4) == 16;
  }

  function Finalised(row: Row, attempts: Positive, verdict: Verdict, now: int): Row {
    match verdict
    case Delivered => row.(status := Sent)
    case Undeliverable => row.(status := Dead)
    case Retry => row.(status := Failed, due := now + Backoff(attempts))
  }

  // ---------------------------------------------------------------- processing one claimed row

  datatype SendResult = Accepted | RefusedForGood | Temporary

  /** What a worker finds while processing a row. */
  datatype Finding = Finding(templateKnown: bool, isSms: bool, configured: bool, capLeft: bool, send: SendResult)

  function VerdictOf(settings: Settings, attempts: Positive, f: Finding): Verdict {
    if !f.templateKnown || (f.isSms && f.configured && !f.capLeft) then Undeliverable
    else match f.send
      case Accepted => Delivered
      case RefusedForGood => Undeliverable
      case Temporary => if attempts >= settings.maxAttempts then Undeliverable else Retry
  }

  // ---------------------------------------------------------------- runs

  datatype State = State(rows: map<Id, Row>, claims: seq<Claim>, now: int)

  datatype Step =
    | Enqueue(id: Id)
    | Tick(seconds: nat)
    | Take(id: Id)
    | Finish(claim: nat, finding: Finding)

  predicate Open(claim: Claim) {
    claim.verdict.None?
  }

  /** A worker still holds the row: its claim is open and the lease has not ended. */
  predicate Owns(s: State, c: nat) {
    c < |s.claims| && Open(s.claims[c]) && s.now < s.claims[c].deadline
  }

  function TakeRow(settings: Settings, s: State, id: Id): State {
    if id in s.rows && Due(s.rows[id], s.now) then
      var row := Taken(s.rows[id], s.now, settings.leaseSeconds);
      s.(rows := s.rows[id := row], claims := s.claims + [Claim(id, row.attempts, row.due, None)])
    else s
  }

  /** The finaliser's transaction; it does not look at the row's status. */
  function Finalise(s: State, c: nat, verdict: Verdict): State
    requires c < |s.claims|
  {
    var claim := s.claims[c];
    var closed := s.(claims := s.claims[c := claim.(verdict := Some(verdict))]);
    if claim.row in s.rows then
      closed.(rows := s.rows[claim.row := Finalised(s.rows[claim.row], claim.attempts, verdict, s.now)])
    else closed
  }

  /** Claims are finalised before their lease ends, or never. */
  function Apply(settings: Settings, s: State, step: Step): State {
    match step
    case Enqueue(id) => if id in s.rows then s else s.(rows := s.rows[id := Row(Pending, 0, s.now)])
    case Tick(seconds) => s.(now := s.now + seconds)
    case Take(id) => TakeRow(settings, s, id)
    case Finish(c, finding) =>
      if Owns(s, c) then Finalise(s, c, VerdictOf(settings, s.claims[c].attempts, finding)) else s
  }

  function Run(settings: Settings, start: State, steps: seq<Step>): State {
    if steps == [] then start
    else Apply(settings, Run(settings, start, steps[..|steps| - 1]), steps[|steps| - 1])
  }

  const EMPTY := State(map[], [], 0)

  // ---------------------------------------------------------------- counting claims

  function CountOpen(claims: seq<Claim>, id: Id): nat {
    if claims == [] then 0
    else CountOpen(claims[..|claims| - 1], id)
         + (var c := claims[|claims| - 1]; if c.row == id && Open(c) then 1 else 0)
  }

  function CountClosed(claims: seq<Claim>, id: Id): nat {
    if claims == [] then 0
    else CountClosed(claims[..|claims| - 1], id)
         + (var c := claims[|claims| - 1]; if c.row == id && !Open(c) then 1 else 0)
  }

  predicate Final(claim: Claim) {
    claim.verdict.Some? && !claim.verdict.value.Retry?
  }

  /** How often a row has been settled, as sent or as dead. */
  function CountFinal(claims: seq<Claim>, id: Id): nat {
    if claims == [] then 0
    else CountFinal(claims[..|claims| - 1], id)
         + (var c := claims[|claims| - 1]; if c.row == id && Final(c) then 1 else 0)
  }

  lemma CountsAppend(claims: seq<Claim>, claim: Claim, id: Id)
    requires Open(claim)
    ensures CountOpen(claims + [claim], id) == CountOpen(claims, id) + (if claim.row == id then 1 else 0)
    ensures CountClosed(claims + [claim], id) == CountClosed(claims, id)
    ensures CountFinal(claims + [claim], id) == CountFinal(claims, id)
  {
    assert (claims + [claim])[..|claims|] == claims;
  }

  lemma {:induction false} CountsClose(claims: seq<Claim>, c: nat, verdict: Verdict, id: Id)
    requires c < |claims| && Open(claims[c])
    ensures var next := claims[c := claims[c].(verdict := Some(verdict))];
            var one := if claims[c].row == id then 1 else 0;
            && CountOpen(next, id) == CountOpen(claims, id) - one
            && CountClosed(next, id) == CountClosed(claims, id) + one
            && CountFinal(next, id) == CountFinal(claims, id) + (if verdict.Retry? then 0 else one)
  {
    var next := claims[c := claims[c].(verdict := Some(verdict))];
    var n := |claims| - 1;
    if c == n {
      assert next[..n] == claims[..n];
    } else {
      CountsClose(claims[..n], c, verdict, id);
      assert next[..n] == claims[..n][c := claims[c].(verdict := Some(verdict))];
    }
  }

  lemma {:induction false} NoClaimsNoCount(claims: seq<Claim>, id: Id)
    requires forall c :: 0 <= c < |claims| ==> claims[c].row != id
    ensures CountOpen(claims, id) == CountClosed(claims, id) == CountFinal(claims, id) == 0
  {
    if claims != [] {
      NoClaimsNoCount(claims[..|claims| - 1], id);
    }
  }

  // ---------------------------------------------------------------- the invariant

  /** Claims of one row carry the numbers of its attempts, in order. */
  ghost predicate Numbered(rows: map<Id, Row>, claims: seq<Claim>) {
    && (forall c :: 0 <= c < |claims| ==> claims[c].row in rows && claims[c].attempts <= rows[claims[c].row].attempts)
    && (forall c, d :: 0 <= c < d < |claims| && claims[c].row == claims[d].row ==>
          claims[c].attempts < claims[d].attempts)
  }

  /** A claim under a running lease is the row's last one, and the row knows it. */
  ghost predicate LeasesHeld(s: State) {
    forall c :: 0 <= c < |s.claims| && s.claims[c].row in s.rows && Owns(s, c) ==>
      s.rows[s.claims[c].row] == Row(Sending, s.claims[c].attempts, s.claims[c].deadline)
  }

  function Allowance(settings: Settings): (r: nat)
    ensures r >= 1 && r >= settings.maxAttempts
  {
    if settings.maxAttempts < 1 then 1 else settings.maxAttempts
  }

  ghost predicate Counted(settings: Settings, row: Row, claims: seq<Claim>, id: Id) {
    && row.attempts == CountOpen(claims, id) + CountClosed(claims, id)
    && CountFinal(claims, id) == (if Ended(row.status) then 1 else 0)
    && CountClosed(claims, id) <= Allowance(settings) - (if Ended(row.status) then 0 else 1)
  }

  ghost predicate Inv(settings: Settings, s: State) {
    && Numbered(s.rows, s.claims)
    && LeasesHeld(s)
    && (forall id :: id in s.rows ==> Counted(settings, s.rows[id], s.claims, id))
  }

  lemma TakeCounts(settings: Settings, s: State, id: Id, other: Id)
    requires Inv(settings, s) && id in s.rows && Due(s.rows[id], s.now) && other in s.rows
    ensures var t := TakeRow(settings, s, id); other in t.rows && Counted(settings, t.rows[other], t.claims, other)
  {
    var row := Taken(s.rows[id], s.now, settings.leaseSeconds);
    CountsAppend(s.claims, Claim(id, row.attempts, row.due, None), other);
    assert Counted(settings, s.rows[other], s.claims, other);
  }

  lemma TakeKeeps(settings: Settings, s: State, id: Id)
    requires Inv(settings, s)
    ensures Inv(settings, TakeRow(settings, s, id))
  {
    if id in s.rows && Due(s.rows[id], s.now) {
      var t := TakeRow(settings, s, id);
      forall other | other in t.rows ensures Counted(settings, t.rows[other], t.claims, other) {
        TakeCounts(settings, s, id, other);
      }
      assert forall c :: 0 <= c < |s.claims| ==> t.claims[c] == s.claims[c];
      assert forall c :: 0 <= c < |s.claims| && s.claims[c].row == id ==> !Owns(s, c);
    }
  }

  lemma OneOwner(settings: Settings, s: State, c: nat, d: nat)
    requires Inv(settings, s) && Owns(s, c) && Owns(s, d) && s.claims[c].row == s.claims[d].row
    ensures c == d
  {
    assert s.rows[s.claims[c].row].attempts == s.claims[c].attempts == s.claims[d].attempts;
  }

  lemma FinaliseCounts(settings: Settings, s: State, c: nat, finding: Finding, other: Id)
    requires Inv(settings, s) && Owns(s, c) && other in s.rows
    ensures var t := Finalise(s, c, VerdictOf(settings, s.claims[c].attempts, finding));
            other in t.rows && Counted(settings, t.rows[other], t.claims, other)
  {
    CountsClose(s.claims, c, VerdictOf(settings, s.claims[c].attempts, finding), other);
    assert Counted(settings, s.rows[other], s.claims, other);
    assert s.rows[s.claims[c].row] == Row(Sending, s.claims[c].attempts, s.claims[c].deadline);
  }

  lemma FinaliseLeases(settings: Settings, s: State, c: nat, verdict: Verdict)
    requires Inv(settings, s) && Owns(s, c)
    ensures LeasesHeld(Finalise(s, c, verdict))
  {
    var t := Finalise(s, c, verdict);
    forall d | 0 <= d < |t.claims| && t.claims[d].row in t.rows && Owns(t, d)
      ensures t.rows[t.claims[d].row] == Row(Sending, t.claims[d].attempts, t.claims[d].deadline)
    {
      assert Owns(s, d) && d != c;
      if s.claims[d].row == s.claims[c].row {
        OneOwner(settings, s, c, d);
      }
    }
  }

  lemma FinaliseNumbers(s: State, c: nat, verdict: Verdict)
    requires Numbered(s.rows, s.claims) && c < |s.claims|
    ensures Numbered(Finalise(s, c, verdict).rows, Finalise(s, c, verdict).claims)
  {
    var t := Finalise(s, c, verdict);
    assert forall d :: 0 <= d < |s.claims| ==>
             t.claims[d].row == s.claims[d].row && t.claims[d].attempts == s.claims[d].attempts;
  }

  lemma FinishKeeps(settings: Settings, s: State, c: nat, finding: Finding)
    requires Inv(settings, s) && Owns(s, c)
    ensures Inv(settings, Finalise(s, c, VerdictOf(settings, s.claims[c].attempts, finding)))
  {
    var verdict := VerdictOf(settings, s.claims[c].attempts, finding);
    var t := Finalise(s, c, verdict);
    FinaliseNumbers(s, c, verdict);
    FinaliseLeases(settings, s, c, verdict);
    forall id | id in t.rows ensures Counted(settings, t.rows[id], t.claims, id) {
      FinaliseCounts(settings, s, c, finding, id);
    }
  }

  lemma EnqueueKeeps(settings: Settings, s: State, id: Id)
    requires Inv(settings, s) && id !in s.rows
    ensures Inv(settings, s.(rows := s.rows[id := Row(Pending, 0, s.now)]))
  {
    NoClaimsNoCount(s.claims, id);
  }

  lemma ApplyKeeps(settings: Settings, s: State, step: Step)
    requires Inv(settings, s)
    ensures Inv(settings, Apply(settings, s, step))
  {
    match step
    case Enqueue(id) =>
      if id !in s.rows {
        EnqueueKeeps(settings, s, id);
      }
    case Tick(seconds) =>
      assert forall c :: 0 <= c < |s.claims| && Owns(Apply(settings, s, step), c) ==> Owns(s, c);
    case Take(id) => TakeKeeps(settings, s, id);
    case Finish(c, finding) =>
      if Owns(s, c) {
        FinishKeeps(settings, s, c, finding);
      }
  }

  lemma {:induction false} RunKeeps(settings: Settings, start: State, steps: seq<Step>)
    requires Inv(settings, start)
    ensures Inv(settings, Run(settings, start, steps))
  {
    if steps != [] {
      RunKeeps(settings, start, steps[..|steps| - 1]);
      ApplyKeeps(settings, Run(settings, start, steps[..|steps| - 1]), steps[|steps| - 1]);
    }
  }

  // ---------------------------------------------------------------- what every run keeps

  /**
   No row ever has two owners, and a claim that could still finalise a settled row has lost its
   lease.
   */
  lemma NoTwoOwners(settings: Settings, steps: seq<Step>, c: nat, d: nat)
    ensures var s := Run(settings, EMPTY, steps);
            && (Owns(s, c) && Owns(s, d) && s.claims[c].row == s.claims[d].row ==> c == d)
            && (c < |s.claims| ==> s.claims[c].row in s.rows)
            && (c < |s.claims| && Open(s.claims[c]) && Ended(s.rows[s.claims[c].row].status) ==>
                  s.claims[c].deadline <= s.now)
  {
    RunKeeps(settings, EMPTY, steps);
    var s := Run(settings, EMPTY, steps);
    if Owns(s, c) && Owns(s, d) && s.claims[c].row == s.claims[d].row {
      OneOwner(settings, s, c, d);
    }
    assert Owns(s, c) ==> s.rows[s.claims[c].row].status == Sending;
  }

  /** Attempts beyond the configured maximum are all accounted for by claims nobody finalised. */
  lemma AttemptsBounded(settings: Settings, steps: seq<Step>, id: Id)
    requires id in Run(settings, EMPTY, steps).rows
    ensures var s := Run(settings, EMPTY, steps);
            && s.rows[id].attempts == CountClosed(s.claims, id) + CountOpen(s.claims, id)
            && s.rows[id].attempts <= Allowance(settings) + CountOpen(s.claims, id)
            && CountFinal(s.claims, id) == (if Ended(s.rows[id].status) then 1 else 0)
  {
    RunKeeps(settings, EMPTY, steps);
    var s := Run(settings, EMPTY, steps);
    assert Counted(settings, s.rows[id], s.claims, id);
  }

  lemma EndedStays(settings: Settings, s: State, step: Step, id: Id)
    requires Inv(settings, s) && id in s.rows && Ended(s.rows[id].status)
    ensures var t := Apply(settings, s, step); id in t.rows && t.rows[id] == s.rows[id]
  {
    if step.Finish? && Owns(s, step.claim) {
      assert s.claims[step.claim].row in s.rows;
      assert s.rows[s.claims[step.claim].row].status == Sending;
    }
  }

  lemma {:induction false} EndedOnward(settings: Settings, s: State, more: seq<Step>, id: Id)
    requires Inv(settings, s) && id in s.rows && Ended(s.rows[id].status)
    ensures id in Run(settings, s, more).rows && Run(settings, s, more).rows[id] == s.rows[id]
  {
    if more != [] {
      EndedOnward(settings, s, more[..|more| - 1], id);
      RunKeeps(settings, s, more[..|more| - 1]);
      EndedStays(settings, Run(settings, s, more[..|more| - 1]), more[|more| - 1], id);
    }
  }

  lemma {:induction false} RunOn(settings: Settings, s: State, steps: seq<Step>, more: seq<Step>)
    ensures Run(settings, s, steps + more) == Run(settings, Run(settings, s, steps), more)
  {
    var all := steps + more;
    if more == [] {
      assert all == steps;
    } else {
      RunOn(settings, s, steps, more[..|more| - 1]);
      assert all[..|all| - 1] == steps + more[..|more| - 1];
    }
  }

  /** Sent and dead are for good, whatever happens afterwards. */
  lemma EndedIsForGood(settings: Settings, steps: seq<Step>, more: seq<Step>, id: Id)
    requires id in Run(settings, EMPTY, steps).rows && Ended(Run(settings, EMPTY, steps).rows[id].status)
    ensures var s, t := Run(settings, EMPTY, steps), Run(settings, EMPTY, steps + more);
            id in t.rows && t.rows[id] == s.rows[id]
  {
    RunKeeps(settings, EMPTY, steps);
    EndedOnward(settings, Run(settings, EMPTY, steps), more, id);
    RunOn(settings, EMPTY, steps, more);
  }

  // ---------------------------------------------------------------- one claim, one verdict

  /** Nothing was sent: the template is unknown, or the tenant's own SMS channel has used up its day. */
  predicate Unsendable(f: Finding) {
    !f.templateKnown || (f.isSms && f.configured && !f.capLeft)
  }

  predicate GivenUp(settings: Settings, attempts: Positive, f: Finding) {
    || Unsendable(f) || f.send == RefusedForGood
    || (f.send == Temporary && attempts >= settings.maxAttempts)
  }

  /** A claim ends its row as sent or as dead, or puts it off; other rows are left alone. */
  lemma FinishedExactly(settings: Settings, s: State, c: nat, f: Finding)
    requires Inv(settings, s) && Owns(s, c)
    ensures var t, claim := Apply(settings, s, Finish(c, f)), s.claims[c];
            && claim.row in s.rows && claim.row in t.rows && t.now == s.now
            && t.rows == s.rows[claim.row := t.rows[claim.row]]
            && var was, next := s.rows[claim.row], t.rows[claim.row];
               && next.attempts == was.attempts
               && (next.status == Sent <==> !Unsendable(f) && f.send == Accepted)
               && (next.status == Dead <==> GivenUp(settings, claim.attempts, f))
               && (Ended(next.status) ==> next.due == was.due)
               && (!Ended(next.status) ==> next.status == Failed && next.due == s.now + Backoff(claim.attempts))
  {
  }

  /** A row is taken exactly when it falls due: it is owned until the lease ends, and counts one attempt more. */
  lemma TakenExactly(settings: Settings, s: State, id: Id)
    ensures var t := Apply(settings, s, Take(id));
            if id in s.rows && !Ended(s.rows[id].status) && s.rows[id].due <= s.now then
              var row := Row(Sending, s.rows[id].attempts + 1, s.now + settings.leaseSeconds);
              t == State(s.rows[id := row], s.claims + [Claim(id, row.attempts, row.due, None)], s.now)
            else t == s
  {
  }

  const TYPICAL := Settings(300, 5)
  const GOOD := Finding(true, false, true, true, Accepted)
  const OVERDUE := State(map[0 := Row(Sending, 1, 300)], [Claim(0, 1, 300, None)], 300)
  const SENT_BY_SECOND :=
    State(map[0 := Row(Sent, 2, 600)], [Claim(0, 1, 300, None), Claim(0, 2, 600, Some(Delivered))], 300)

  /** A worker takes the row and its lease runs out. */
  lemma LeaseRunsOut()
    ensures Run(TYPICAL, EMPTY, [Enqueue(0), Take(0), Tick(300)]) == OVERDUE
  {
    var a, b, c := [Enqueue(0)], [Enqueue(0), Take(0)], [Enqueue(0), Take(0), Tick(300)];
    assert a[..0] == [] && b[..1] == a && c[..2] == b;
    assert Run(TYPICAL, EMPTY, []) == EMPTY;
    assert Run(TYPICAL, EMPTY, a) == State(map[0 := Row(Pending, 0, 0)], [], 0);
    assert Run(TYPICAL, EMPTY, b) == State(map[0 := Row(Sending, 1, 300)], [Claim(0, 1, 300, None)], 0);
  }

  /** A second worker takes the overdue row and sends it. */
  lemma SecondWorkerSends()
    ensures Run(TYPICAL, OVERDUE, [Take(0), Finish(1, GOOD)]) == SENT_BY_SECOND
  {
    var a, b := [Take(0)], [Take(0), Finish(1, GOOD)];
    assert a[..0] == [] && b[..1] == a;
    assert Run(TYPICAL, OVERDUE, []) == OVERDUE;
    assert Run(TYPICAL, OVERDUE, a)
        == State(map[0 := Row(Sending, 2, 600)], [Claim(0, 1, 300, None), Claim(0, 2, 600, None)], 300);
  }

  /**
   The lease discipline is needed: the finaliser itself does not look at the row, so a worker
   that outlives its lease turns a sent row back into one that will be sent again.
   */
  lemma LateFinaliserUndoes()
    ensures exists settings, steps, c: nat, verdict, id ::
              var s := Run(settings, EMPTY, steps);
              && c < |s.claims| && Open(s.claims[c]) && s.claims[c].deadline <= s.now
              && id in s.rows && s.rows[id].status == Sent
              && id in Finalise(s, c, verdict).rows && Finalise(s, c, verdict).rows[id].status == Failed
  {
    LeaseRunsOut();
    SecondWorkerSends();
    var first, second := [Enqueue(0), Take(0), Tick(300)], [Take(0), Finish(1, GOOD)];
    RunOn(TYPICAL, EMPTY, first, second);
    var s := Run(TYPICAL, EMPTY, first + second);
    assert s == SENT_BY_SECOND;
    assert Finalise(s, 0, Retry).rows[0].status == Failed;
  }

  // ---------------------------------------------------------------- without the lease discipline

  /** As `Apply`, but a worker may finalise its claim at any time. */
  function ApplyLate(settings: Settings, s: State, step: Step): State {
    match step
    case Finish(c, finding) =>
      if c < |s.claims| && Open(s.claims[c]) then Finalise(s, c, VerdictOf(settings, s.claims[c].attempts, finding))
      else s
    case _ => Apply(settings, s, step)
  }

  function RunLate(settings: Settings, start: State, steps: seq<Step>): State {
    if steps == [] then start
    else ApplyLate(settings, RunLate(settings, start, steps[..|steps| - 1]), steps[|steps| - 1])
  }

  predicate NoOpenClaim(claims: seq<Claim>, id: Id) {
    forall c :: 0 <= c < |claims| && claims[c].row == id ==> !Open(claims[c])
  }

  ghost predicate SettledForGood(settings: Settings, s: State, id: Id)
    requires id in s.rows
  {
    forall steps :: id in RunLate(settings, s, steps).rows
      && RunLate(settings, s, steps).rows[id].status == s.rows[id].status
  }

  lemma LateStepKeeps(settings: Settings, s: State, step: Step, id: Id)
    requires id in s.rows && Ended(s.rows[id].status) && NoOpenClaim(s.claims, id)
    ensures var t := ApplyLate(settings, s, step);
            id in t.rows && t.rows[id] == s.rows[id] && NoOpenClaim(t.claims, id)
  {
  }

  lemma {:induction false} LateRunKeeps(settings: Settings, s: State, steps: seq<Step>, id: Id)
    requires id in s.rows && Ended(s.rows[id].status) && NoOpenClaim(s.claims, id)
    ensures var t := RunLate(settings, s, steps);
            id in t.rows && t.rows[id] == s.rows[id] && NoOpenClaim(t.claims, id)
  {
    if steps != [] {
      LateRunKeeps(settings, s, steps[..|steps| - 1], id);
      LateStepKeeps(settings, RunLate(settings, s, steps[..|steps| - 1]), steps[|steps| - 1], id);
    }
  }

  /** An open claim of a settled row can settle it the other way. */
  lemma OpenClaimUnsettles(settings: Settings, s: State, c: nat) returns (steps: seq<Step>)
    requires c < |s.claims| && Open(s.claims[c]) && s.claims[c].row in s.rows && Ended(s.rows[s.claims[c].row].status)
    ensures var id := s.claims[c].row;
            id in RunLate(settings, s, steps).rows && RunLate(settings, s, steps).rows[id].status != s.rows[id].status
  {
    var sent := s.rows[s.claims[c].row].status == Sent;
    steps := [Finish(c, Finding(!sent, false, false, false, Accepted))];
    assert steps[..0] == [];
    assert RunLate(settings, s, steps) == ApplyLate(settings, s, steps[0]);
  }

  /**
   With workers that outlive their leases, a settled row stays as it was settled in every
   continuation if and only if no claim of it is still open.
   */
  lemma SettledForGoodExactly(settings: Settings, s: State, id: Id)
    requires id in s.rows && Ended(s.rows[id].status)
    ensures SettledForGood(settings, s, id) <==> NoOpenClaim(s.claims, id)
  {
    if NoOpenClaim(s.claims, id) {
      forall steps
        ensures id in RunLate(settings, s, steps).rows
                && RunLate(settings, s, steps).rows[id].status == s.rows[id].status
      {
        LateRunKeeps(settings, s, steps, id);
      }
    } else {
      var c :| 0 <= c < |s.claims| && s.claims[c].row == id && Open(s.claims[c]);
      var steps := OpenClaimUnsettles(settings, s, c);
    }
  }

  // ---------------------------------------------------------------- the dispatcher

  ghost predicate Earliest(rows: map<Id, Row>, pool: set<Id>, id: Id)
    requires pool <= rows.Keys
  {
    id in pool && forall other :: other in pool ==> rows[id].due <= rows[other].due
  }

  lemma {:induction false} SomeEarliest(rows: map<Id, Row>, pool: set<Id>) returns (id: Id)
    requires pool <= rows.Keys && pool != {}
    ensures Earliest(rows, pool, id)
    decreases |pool|
  {
    id :| id in pool;
    if pool != {id} {
      var rest := SomeEarliest(rows, pool - {id});
      if rows[rest].due < rows[id].due {
        id := rest;
      }
    }
  }

  function DueRows(rows: map<Id, Row>, now: int, locked: set<Id>): set<Id> {
    set id | id in rows && id !in locked && Due(rows[id], now)
  }

  /** Rows of the pool without repetition, earlier ones first. */
  ghost predicate InDueOrder(rows: map<Id, Row>, pool: set<Id>, ids: seq<Id>) {
    && pool <= rows.Keys
    && (forall i :: 0 <= i < |ids| ==> ids[i] in pool)
    && (forall i, j :: 0 <= i < j < |ids| ==> ids[i] != ids[j] && rows[ids[i]].due <= rows[ids[j]].due)
  }

  /** No row left behind is earlier than one that was picked. */
  ghost predicate LeavesLater(rows: map<Id, Row>, rest: set<Id>, ids: seq<Id>) {
    forall i, id :: 0 <= i < |ids| && id in rest && ids[i] in rows && id in rows ==> rows[ids[i]].due <= rows[id].due
  }

  /** What a due-row query picks: the earliest rows of a pool, as many as the limit allows. */
  ghost predicate Picks(rows: map<Id, Row>, pool: set<Id>, limit: nat, ids: seq<Id>) {
    && InDueOrder(rows, pool, ids)
    && |ids| <= limit
    && exists rest :: LeavesLater(rows, rest, ids) && Parts(pool, ids, rest) && (|ids| < limit ==> rest == {})
  }

  ghost predicate Parts(pool: set<Id>, ids: seq<Id>, rest: set<Id>) {
    forall id :: id in rest <==> id in pool && id !in ids
  }

  function TakenRows(rows: map<Id, Row>, ids: seq<Id>, now: int, lease: nat): map<Id, Row> {
    map id | id in rows :: if id in ids then Taken(rows[id], now, lease) else rows[id]
  }

  lemma TakenOneMore(rows: map<Id, Row>, ids: seq<Id>, id: Id, now: int, lease: nat)
    requires id in rows && id !in ids
    ensures TakenRows(rows, ids + [id], now, lease) ==
            TakenRows(rows, ids, now, lease)[id := Taken(TakenRows(rows, ids, now, lease)[id], now, lease)]
  {
  }

  function Takes(ids: seq<Id>): (steps: seq<Step>)
    ensures |steps| == |ids|
  {
    if ids == [] then [] else Takes(ids[..|ids| - 1]) + [Take(ids[|ids| - 1])]
  }

  lemma TakesNext(settings: Settings, s: State, part: seq<Id>, claimed: seq<Claim>, id: Id)
    requires id in s.rows && Due(s.rows[id], s.now) && id !in part
    ensures var lease := settings.leaseSeconds;
            TakeRow(settings, State(TakenRows(s.rows, part, s.now, lease), s.claims + claimed, s.now), id) ==
            State(TakenRows(s.rows, part + [id], s.now, lease),
                  s.claims + (claimed + [Claim(id, s.rows[id].attempts + 1, s.now + lease, None)]), s.now)
  {
    TakenOneMore(s.rows, part, id, s.now, settings.leaseSeconds);
    var claim := Claim(id, s.rows[id].attempts + 1, s.now + settings.leaseSeconds, None);
    assert (s.claims + claimed) + [claim] == s.claims + (claimed + [claim]);
  }

  /** Rows that are due, each named once. */
  ghost predicate AllDue(rows: map<Id, Row>, ids: seq<Id>, now: int) {
    && (forall i :: 0 <= i < |ids| ==> ids[i] in rows && Due(rows[ids[i]], now))
    && (forall i, j :: 0 <= i < j < |ids| ==> ids[i] != ids[j])
  }

  lemma AllDueMore(rows: map<Id, Row>, ids: seq<Id>, now: int)
    requires AllDue(rows, ids, now) && ids != []
    ensures var part, last := ids[..|ids| - 1], ids[|ids| - 1];
            AllDue(rows, part, now) && last in rows && Due(rows[last], now) && last !in part && ids == part + [last]
  {
  }

  /** The claims that a batch hands out, in order. */
  function ClaimsOf(rows: map<Id, Row>, ids: seq<Id>, deadline: int): seq<Claim> {
    if ids == [] then []
    else ClaimsOf(rows, ids[..|ids| - 1], deadline) + [ClaimOf(rows, ids[|ids| - 1], deadline)]
  }

  function ClaimOf(rows: map<Id, Row>, id: Id, deadline: int): Claim {
    Claim(id, (if id in rows then rows[id].attempts else 0) + 1, deadline, None)
  }

  /** The rows and the claims once one more of the due rows has been marked. */
  lemma MarkedNext(rows: map<Id, Row>, ids: seq<Id>, i: nat, now: int, lease: nat)
    requires AllDue(rows, ids, now) && i < |ids|
    ensures var taken := TakenRows(rows, ids[..i], now, lease);
            && ids[i] in taken && taken[ids[i]] == rows[ids[i]]
            && TakenRows(rows, ids[..i + 1], now, lease) == taken[ids[i] := Taken(rows[ids[i]], now, lease)]
    ensures ClaimsOf(rows, ids[..i + 1], now + lease)
            == ClaimsOf(rows, ids[..i], now + lease) + [ClaimOf(rows, ids[i], now + lease)]
  {
    assert ids[..i + 1] == ids[..i] + [ids[i]] && ids[..i + 1][..i] == ids[..i];
    TakenOneMore(rows, ids[..i], ids[i], now, lease);
  }

  /** A claimed batch is the same as claiming its rows one after the other. */
  lemma {:induction false} BatchIsTakes(settings: Settings, s: State, ids: seq<Id>)
    requires AllDue(s.rows, ids, s.now)
    ensures Run(settings, s, Takes(ids)) ==
            State(TakenRows(s.rows, ids, s.now, settings.leaseSeconds),
                  s.claims + ClaimsOf(s.rows, ids, s.now + settings.leaseSeconds), s.now)
    decreases |ids|
  {
    if ids == [] {
      assert TakenRows(s.rows, ids, s.now, settings.leaseSeconds) == s.rows;
      assert s.claims + [] == s.claims;
    } else {
      var part, last := ids[..|ids| - 1], ids[|ids| - 1];
      AllDueMore(s.rows, ids, s.now);
      BatchIsTakes(settings, s, part);
      assert Takes(ids)[..|part|] == Takes(part);
      TakesNext(settings, s, part, ClaimsOf(s.rows, part, s.now + settings.leaseSeconds), last);
    }
  }

  class Table {
    var rows: map<Id, Row>

    constructor ()
      ensures rows == map[]
    {
      rows := map[];
    }

    /** The due rows that no other transaction has locked, earliest first. */
    method SelectDue(now: int, batch: nat, locked: set<Id>) returns (ids: seq<Id>)
      ensures Picks(rows, DueRows(rows, now, locked), batch, ids)
    {
      var pool := DueRows(rows, now, locked);
      var rest := pool;
      ids := [];
      while |ids| < batch && rest != {}
        invariant Parts(pool, ids, rest) && |ids| <= batch
        invariant InDueOrder(rows, pool, ids) && LeavesLater(rows, rest, ids)
        decreases rest
      {
        ghost var earliest := SomeEarliest(rows, rest);
        var id :| id in rest && forall other :: other in rest ==> rows[id].due <= rows[other].due;
        ids := ids + [id];
        rest := rest - {id};
      }
    }

    /** Claim the due rows under one lease. */
    method ClaimBatch(settings: Settings, now: int, batch: nat, locked: set<Id>)
      returns (claimed: seq<Claim>, ghost ids: seq<Id>)
      modifies this
      ensures Picks(old(rows), DueRows(old(rows), now, locked), batch, ids) && AllDue(old(rows), ids, now)
      ensures claimed == ClaimsOf(old(rows), ids, now + settings.leaseSeconds)
      ensures rows == TakenRows(old(rows), ids, now, settings.leaseSeconds)
    {
      var due := SelectDue(now, batch, locked);
      ids := due;
      claimed := MarkSending(due, now, settings.leaseSeconds);
    }

    method MarkSending(ids: seq<Id>, now: int, lease: nat) returns (claimed: seq<Claim>)
      requires AllDue(rows, ids, now)
      modifies this
      ensures claimed == ClaimsOf(old(rows), ids, now + lease)
      ensures rows == TakenRows(old(rows), ids, now, lease)
    {
      var deadline := now + lease;
      claimed := [];
      assert TakenRows(rows, [], now, lease) == rows;
      for i := 0 to |ids|
        invariant rows == TakenRows(old(rows), ids[..i], now, lease)
        invariant claimed == ClaimsOf(old(rows), ids[..i], deadline)
      {
        MarkedNext(old(rows), ids, i, now, lease);
        var row := rows[ids[i]];
        rows := rows[ids[i] := Row(Sending, row.attempts + 1, deadline)];
        claimed := claimed + [Claim(ids[i], row.attempts + 1, deadline, None)];
      }
      assert ids[..|ids|] == ids;
    }

    /** Process one claimed row; a row that is gone meanwhile is left out. */
    method ProcessRow(settings: Settings, claim: Claim, f: Finding, now: int) returns (failedEvent: bool)
      modifies this
      ensures claim.row !in old(rows) ==> rows == old(rows)
      ensures claim.row in old(rows) ==>
                rows == old(rows)[claim.row := Finalised(old(rows)[claim.row], claim.attempts,
                                                         VerdictOf(settings, claim.attempts, f), now)]
      ensures failedEvent <==> VerdictOf(settings, claim.attempts, f) == Undeliverable
    {
      if !f.templateKnown {
        Bury(claim.row);
        return true;
      }
      if f.isSms && f.configured && !f.capLeft {
        Bury(claim.row);
        return true;
      }
      match f.send {
        case RefusedForGood =>
          Bury(claim.row);
          failedEvent := true;
        case Temporary =>
          if claim.attempts >= settings.maxAttempts {
            Bury(claim.row);
            failedEvent := true;
          } else {
            Reschedule(claim, now);
            failedEvent := false;
          }
        case Accepted =>
          MarkSent(claim.row);
          failedEvent := false;
      }
    }

    method MarkSent(id: Id)
      modifies this
      ensures rows == if id in old(rows) then old(rows)[id := old(rows)[id].(status := Sent)] else old(rows)
    {
      if id in rows {
        rows := rows[id := rows[id].(status := Sent)];
      }
    }

    method Reschedule(claim: Claim, now: int)
      modifies this
      ensures rows == if claim.row in old(rows)
                      then old(rows)[claim.row := old(rows)[claim.row]
                                                  .(status := Failed, due := now + Backoff(claim.attempts))]
                      else old(rows)
    {
      if claim.row in rows {
        rows := rows[claim.row := rows[claim.row].(status := Failed, due := now + Backoff(claim.attempts))];
      }
    }

    method Bury(id: Id)
      modifies this
      ensures rows == if id in old(rows) then old(rows)[id := old(rows)[id].(status := Dead)] else old(rows)
    {
      if id in rows {
        rows := rows[id := rows[id].(status := Dead)];
      }
    }
  }
}
