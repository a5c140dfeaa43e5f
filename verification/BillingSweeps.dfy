/** The two cron sweeps, target by target, and what a whole sweep does and counts. */
module BillingSweeps {
  import opened Base
  import opened Calendar
  import opened Billing
  import opened BillingInvariant
  import opened BillingRuns

  // ---------------------------------------------------------------- stale checkouts

  /** The tables after a sweep: each target in its own transaction. */
  ghost function ExpirySweep(s: State, targets: seq<Id>, now: Moment): State {
    if targets == [] then s
    else
      var before := ExpirySweep(s, targets[..|targets| - 1], now);
      Committed(before, ExpireCheckout(before, targets[|targets| - 1], now))
  }

  function ExpirySteps(targets: seq<Id>, now: Moment): (steps: seq<Step>)
    ensures |steps| == |targets|
  {
    if targets == [] then []
    else ExpirySteps(targets[..|targets| - 1], now) + [ExpireSwept(targets[|targets| - 1], now)]
  }

  /** A sweep is a run of expiry steps, so whatever runs keep, sweeps keep. */
  lemma {:induction false} ExpirySweepIsRun(s: State, targets: seq<Id>, now: Moment)
    ensures ExpirySweep(s, targets, now) == Run(s, ExpirySteps(targets, now))
  {
    if targets != [] {
      var rest := targets[..|targets| - 1];
      ExpirySweepIsRun(s, rest, now);
      assert ExpirySteps(targets, now)[..|rest|] == ExpirySteps(rest, now);
    }
  }

  predicate OpenPayment(payments: map<Id, Payment>, id: Id) {
    id in payments && IsOpen(payments[id].status)
  }

  /** How many targets were still open when their turn came. */
  ghost function ExpiredBy(s: State, targets: seq<Id>, now: Moment): nat {
    if targets == [] then 0
    else
      var rest, last := targets[..|targets| - 1], targets[|targets| - 1];
      ExpiredBy(s, rest, now) + if OpenPayment(ExpirySweep(s, rest, now).payments, last) then 1 else 0
  }

  /** The state and the count one target further. */
  lemma SweepTurn(s: State, rest: seq<Id>, last: Id, now: Moment)
    ensures var before := ExpirySweep(s, rest, now);
            && ExpirySweep(s, rest + [last], now) == Committed(before, ExpireCheckout(before, last, now))
            && ExpiredBy(s, rest + [last], now)
               == ExpiredBy(s, rest, now) + if OpenPayment(before.payments, last) then 1 else 0
  {
    assert (rest + [last])[..|rest|] == rest;
  }

  function OpenTargets(payments: map<Id, Payment>, targets: seq<Id>): set<Id> {
    set id | id in targets && OpenPayment(payments, id)
  }

  lemma OpenTargetsMore(payments: map<Id, Payment>, rest: seq<Id>, last: Id)
    ensures OpenTargets(payments, rest + [last]) ==
            OpenTargets(payments, rest) + if OpenPayment(payments, last) then {last} else {}
  {
    assert forall id :: id in rest + [last] <==> id in rest || id == last;
  }

  function ExpiredRow(p: Payment, now: Moment): Payment {
    ClosedRow(p, Expired, None, now)
  }

  /** The payment table once the payments in `ids` have expired. */
  function Swept(payments: map<Id, Payment>, ids: set<Id>, now: Moment): map<Id, Payment> {
    map id | id in payments :: if id in ids then ExpiredRow(payments[id], now) else payments[id]
  }

  lemma SweptMore(payments: map<Id, Payment>, ids: set<Id>, id: Id, now: Moment)
    requires id in payments && id !in ids
    ensures Swept(payments, ids + {id}, now) == Swept(payments, ids, now)[id := ExpiredRow(payments[id], now)]
  {
    var a, b := Swept(payments, ids + {id}, now), Swept(payments, ids, now)[id := ExpiredRow(payments[id], now)];
    assert a.Keys == b.Keys;
    assert forall other :: other in a ==> a[other] == b[other];
  }

  lemma ExpireStep(s: State, id: Id, now: Moment)
    ensures Committed(s, ExpireCheckout(s, id, now)).payments
            == if OpenPayment(s.payments, id) then s.payments[id := ExpiredRow(s.payments[id], now)] else s.payments
  {
  }

  /** One more target expires if it is open and was not a target before; its row and the count follow. */
  lemma SweptNext(payments: map<Id, Payment>, rest: seq<Id>, last: Id, now: Moment)
    ensures var before := Swept(payments, OpenTargets(payments, rest), now);
            && Swept(payments, OpenTargets(payments, rest + [last]), now) ==
               (if OpenPayment(before, last) then before[last := ExpiredRow(before[last], now)] else before)
            && |OpenTargets(payments, rest + [last])|
               == |OpenTargets(payments, rest)| + if OpenPayment(before, last) then 1 else 0
  {
    var open := OpenTargets(payments, rest);
    OpenTargetsMore(payments, rest, last);
    Counted(open, OpenPayment(payments, last), last);
    if OpenPayment(payments, last) && last !in open {
      SweptMore(payments, open, last, now);
    } else if OpenPayment(payments, last) {
      assert open + {last} == open;
    } else {
      assert open + {} == open;
    }
  }

  /** A sweep expires exactly the targets that are open when it starts, and counts each once. */
  lemma {:induction false} SweepExpiresTheOpen(s: State, targets: seq<Id>, now: Moment)
    ensures ExpirySweep(s, targets, now).payments == Swept(s.payments, OpenTargets(s.payments, targets), now)
    ensures ExpiredBy(s, targets, now) == |OpenTargets(s.payments, targets)|
  {
    if targets == [] {
      assert OpenTargets(s.payments, targets) == {} && Swept(s.payments, {}, now) == s.payments;
    } else {
      var rest, last := targets[..|targets| - 1], targets[|targets| - 1];
      SweepExpiresTheOpen(s, rest, now);
      assert targets == rest + [last];
      SweptNext(s.payments, rest, last, now);
      ExpireStep(ExpirySweep(s, rest, now), last, now);
    }
  }

  lemma Counted(ids: set<Id>, more: bool, id: Id)
    ensures |ids + if more then {id} else {}| == |ids| + if more && id !in ids then 1 else 0
  {
    if more && id in ids {
      assert ids + {id} == ids;
    } else if !more {
      assert ids + {} == ids;
    }
  }

  // ---------------------------------------------------------------- ended periods

  /** A scanned subscription, and the id a fallback subscription would get. */
  datatype Due = Due(tenant: Id, subscription: Id, newSubscription: Id)

  ghost function EndOf(s: State, due: Due, fallback: Option<string>, now: Moment): Outcome<(State, bool)> {
    CloseEndedPeriod(s, due.tenant, due.subscription, fallback, due.newSubscription, now)
  }

  /** The tables after a sweep; a target whose transaction raises changes nothing. */
  ghost function EndSweep(s: State, targets: seq<Due>, fallback: Option<string>, now: Moment): State {
    if targets == [] then s
    else
      var before := EndSweep(s, targets[..|targets| - 1], fallback, now);
      CommittedFirst(before, EndOf(before, targets[|targets| - 1], fallback, now))
  }

  function PeriodEndSteps(targets: seq<Due>, fallback: Option<string>, now: Moment): (steps: seq<Step>)
    ensures |steps| == |targets|
  {
    if targets == [] then []
    else
      var due := targets[|targets| - 1];
      PeriodEndSteps(targets[..|targets| - 1], fallback, now)
      + [EndSwept(due.tenant, due.subscription, fallback, due.newSubscription, now)]
  }

  lemma {:induction false} EndSweepIsRun(s: State, targets: seq<Due>, fallback: Option<string>, now: Moment)
    ensures EndSweep(s, targets, fallback, now) == Run(s, PeriodEndSteps(targets, fallback, now))
  {
    if targets != [] {
      var rest := targets[..|targets| - 1];
      EndSweepIsRun(s, rest, fallback, now);
      assert PeriodEndSteps(targets, fallback, now)[..|rest|] == PeriodEndSteps(rest, fallback, now);
    }
  }

  ghost predicate IsDue(s: State, due: Due, now: Moment) {
    PeriodDue(s, due.tenant, due.subscription, now)
  }

  /** No target's transaction raises on its turn. */
  ghost predicate AllEnd(s: State, targets: seq<Due>, fallback: Option<string>, now: Moment) {
    forall i :: 0 <= i < |targets| ==> EndOf(EndSweep(s, targets[..i], fallback, now), targets[i], fallback, now).Ok?
  }

  /** How many targets were still due when their turn came. */
  ghost function EndedBy(s: State, targets: seq<Due>, fallback: Option<string>, now: Moment): nat {
    if targets == [] then 0
    else
      var rest, last := targets[..|targets| - 1], targets[|targets| - 1];
      EndedBy(s, rest, fallback, now) + if IsDue(EndSweep(s, rest, fallback, now), last, now) then 1 else 0
  }

  /** The state and the count one target further. */
  lemma EndTurn(s: State, rest: seq<Due>, last: Due, fallback: Option<string>, now: Moment)
    ensures var before, all := EndSweep(s, rest, fallback, now), rest + [last];
            && EndSweep(s, all, fallback, now) == CommittedFirst(before, EndOf(before, last, fallback, now))
            && EndedBy(s, all, fallback, now)
               == EndedBy(s, rest, fallback, now) + (if IsDue(before, last, now) then 1 else 0)
  {
    assert (rest + [last])[..|rest|] == rest;
  }

  lemma AllEndMore(s: State, rest: seq<Due>, last: Due, fallback: Option<string>, now: Moment)
    ensures AllEnd(s, rest + [last], fallback, now) <==>
            AllEnd(s, rest, fallback, now) && EndOf(EndSweep(s, rest, fallback, now), last, fallback, now).Ok?
  {
    var all := rest + [last];
    assert all[..|rest|] == rest && all[|rest|] == last;
    assert forall i :: 0 <= i < |rest| ==> all[i] == rest[i] && all[..i] == rest[..i];
  }

  /** The subscriptions among the targets that are due, each once. */
  ghost function DueTargets(s: State, targets: seq<Due>, now: Moment): set<Id> {
    set i | 0 <= i < |targets| && IsDue(s, targets[i], now) :: targets[i].subscription
  }

  lemma DueTargetsMore(s: State, rest: seq<Due>, last: Due, now: Moment)
    ensures DueTargets(s, rest + [last], now) ==
            DueTargets(s, rest, now) + if IsDue(s, last, now) then {last.subscription} else {}
  {
    var all := rest + [last];
    assert forall i :: 0 <= i < |rest| ==> all[i] == rest[i];
    forall id: Id | id in DueTargets(s, rest, now) ensures id in DueTargets(s, all, now) {
      var i :| 0 <= i < |rest| && IsDue(s, rest[i], now) && rest[i].subscription == id;
      assert IsDue(s, all[i], now);
    }
    if IsDue(s, last, now) {
      assert IsDue(s, all[|rest|], now);
    }
  }

  /** Between two states exactly the subscriptions in `gone` have stopped being due. */
  ghost predicate Ends(s: State, t: State, gone: set<Id>, now: Moment) {
    forall tenant, id :: PeriodDue(t, tenant, id, now) <==> PeriodDue(s, tenant, id, now) && id !in gone
  }

  lemma EndsCompose(s: State, t: State, u: State, a: set<Id>, b: set<Id>, now: Moment)
    requires Ends(s, t, a, now) && Ends(t, u, b, now)
    ensures Ends(s, u, a + b, now)
  {
  }

  /** A period-end step ends its own subscription if that is due, and leaves every other as due as it was. */
  lemma EndsOne(s: State, due: Due, fallback: Option<string>, now: Moment, tenant: Id, id: Id)
    requires EndOf(s, due, fallback, now).Ok?
    ensures var t := EndOf(s, due, fallback, now).value.0;
            PeriodDue(t, tenant, id, now) <==>
            PeriodDue(s, tenant, id, now) && !(IsDue(s, due, now) && id == due.subscription)
  {
    if IsDue(s, due, now) {
      var sub := s.subscriptions[due.subscription];
      if RollsForward(s.plans, sub) {
        RollForwardContainsNow(sub.periodStart, sub.periodEnd, now, PlanPeriod(s.plans, sub.plan));
      } else if fallback.Some? && PlanOffered(s, fallback.value) {
        PeriodEndIsLater(now, s.plans[fallback.value].period);
      }
    }
  }

  lemma EndStep(s: State, due: Due, fallback: Option<string>, now: Moment)
    requires EndOf(s, due, fallback, now).Ok?
    ensures Ends(s, EndOf(s, due, fallback, now).value.0, if IsDue(s, due, now) then {due.subscription} else {}, now)
  {
    var t := EndOf(s, due, fallback, now).value.0;
    forall tenant: Id, id: Id
      ensures PeriodDue(t, tenant, id, now)
              <==> PeriodDue(s, tenant, id, now) && !(IsDue(s, due, now) && id == due.subscription)
    {
      EndsOne(s, due, fallback, now, tenant, id);
    }
  }

  lemma {:induction false} SweepEnds(s: State, targets: seq<Due>, fallback: Option<string>, now: Moment)
    requires AllEnd(s, targets, fallback, now)
    ensures Ends(s, EndSweep(s, targets, fallback, now), DueTargets(s, targets, now), now)
  {
    if targets == [] {
      assert DueTargets(s, targets, now) == {};
    } else {
      var rest, last := targets[..|targets| - 1], targets[|targets| - 1];
      assert targets == rest + [last];
      AllEndMore(s, rest, last, fallback, now);
      SweepEnds(s, rest, fallback, now);
      var before := EndSweep(s, rest, fallback, now);
      var gone := if IsDue(before, last, now) then {last.subscription} else {};
      EndStep(before, last, fallback, now);
      EndsCompose(s, before, EndOf(before, last, fallback, now).value.0, DueTargets(s, rest, now), gone, now);
      DueTargetsMore(s, rest, last, now);
      assert DueTargets(s, rest, now) + gone == DueTargets(s, targets, now);
    }
  }

  /** A sweep without exceptions ends exactly the targets that are due when it starts, and counts each once. */
  lemma {:induction false} SweepEndsTheDue(s: State, targets: seq<Due>, fallback: Option<string>, now: Moment)
    requires AllEnd(s, targets, fallback, now)
    ensures EndedBy(s, targets, fallback, now) == |DueTargets(s, targets, now)|
    ensures Ends(s, EndSweep(s, targets, fallback, now), DueTargets(s, targets, now), now)
  {
    SweepEnds(s, targets, fallback, now);
    if targets == [] {
      assert DueTargets(s, targets, now) == {};
    } else {
      var rest, last := targets[..|targets| - 1], targets[|targets| - 1];
      assert targets == rest + [last];
      AllEndMore(s, rest, last, fallback, now);
      SweepEndsTheDue(s, rest, fallback, now);
      DueTargetsMore(s, rest, last, now);
      Counted(DueTargets(s, rest, now), IsDue(s, last, now), last.subscription);
    }
  }

  lemma ActsIfDue(s: State, due: Due, fallback: Option<string>, now: Moment)
    requires EndOf(s, due, fallback, now).Ok?
    ensures EndOf(s, due, fallback, now).value.1 <==> IsDue(s, due, now)
  {
  }

  /** What one more target's transaction means for the sweep. */
  lemma TargetEnded(start: State, done: seq<Due>, due: Due, fallback: Option<string>, now: Moment)
    requires Inv(EndSweep(start, done, fallback, now)) && AllEnd(start, done, fallback, now)
    requires EndOf(EndSweep(start, done, fallback, now), due, fallback, now).Ok?
    ensures var (t, acted) := EndOf(EndSweep(start, done, fallback, now), due, fallback, now).value;
            && t == EndSweep(start, done + [due], fallback, now) && Inv(t)
            && AllEnd(start, done + [due], fallback, now)
            && EndedBy(start, done + [due], fallback, now)
               == EndedBy(start, done, fallback, now) + if acted then 1 else 0
  {
    var before := EndSweep(start, done, fallback, now);
    EndTurn(start, done, due, fallback, now);
    AllEndMore(start, done, due, fallback, now);
    ActsIfDue(before, due, fallback, now);
    CloseEndedPeriodKeeps(before, due.tenant, due.subscription, fallback, due.newSubscription, now);
  }
}
