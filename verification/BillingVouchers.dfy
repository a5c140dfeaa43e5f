/**
 Money is only taken as paid on the provider's word: every succeeded payment was moved to success
 by an authenticated confirmation that named it, and an authenticated callback that named it
 carried exactly its amount and currency.
 */
module BillingVouchers {
  import opened Base
  import opened Calendar
  import opened Billing
  import opened Adapters
  import opened Webhooks
  import opened BillingInvariant
  import opened BillingRuns

  /** The callback carries our id of the payment, or the transaction id stored with it. */
  predicate NamedBy(c: Callback, id: Id, p: Payment) {
    c.reference == Some(id) || (c.txn.Some? && c.txn == p.txnId)
  }

  /**
   The callback that vouches for the amount of payment `id`. Payme vouches when it opens the
   transaction, in tiyin, because its confirm carries no amount; the other providers vouch when
   they confirm. Either names the payment, by our id or by the transaction id stored with it.
   */
  predicate Vouches(step: Step, id: Id, p: Payment) {
    && step.Receive? && Authentic(step.request) && Parse(step.request).Recognised?
    && var c := Parse(step.request).callback;
       && c.provider == p.provider && c.amount == Some(p.money)
       && (p.provider == Payme ==>
             && c.action == Create && c.reference == Some(id) && p.txnId == c.txn
             && step.request.PaymeCall? && step.request.tiyin == Integer(p.money.amount * TIYIN_PER_SUM))
       && (p.provider != Payme ==> c.action == Confirm && NamedBy(c, id, p))
  }

  ghost predicate HasVoucher(steps: seq<Step>, id: Id, p: Payment) {
    exists i :: 0 <= i < |steps| && Vouches(steps[i], id, p)
  }

  /** A succeeded payment, or one a Payme confirm could find. */
  predicate NeedsVoucher(p: Payment) {
    p.status == Succeeded || (p.provider == Payme && p.txnId.Some? && p.txnId.value != "")
  }

  /** No step but a callback makes a payment need a voucher. */
  predicate NoNewNeed(payments: Payments, next: Payments, id: Id) {
    id in next && NeedsVoucher(next[id]) ==> id in payments && NeedsVoucher(payments[id])
  }

  lemma OpeningNeedsNone(s: State, step: Step, id: Id)
    requires Opens(step)
    ensures NoNewNeed(s.payments, Apply(s, step).payments, id)
  {
  }

  lemma ClosingNeedsNone(s: State, payment: Id, target: PaymentStatus, reason: Option<string>, now: Moment, id: Id)
    requires payment in s.payments && target != Succeeded && ClosePayment(s, payment, target, reason, now).Ok?
    ensures NoNewNeed(s.payments, ClosePayment(s, payment, target, reason, now).value.payments, id)
  {
  }

  lemma MovingNeedsNone(s: State, step: Step, id: Id)
    requires Moves(step) && !step.Receive?
    ensures NoNewNeed(s.payments, Apply(s, step).payments, id)
  {
    match step
    case CancelOpen(tenant, payment, now) =>
      if CancelPayment(s, tenant, payment, now).Ok? {
        ClosingNeedsNone(s, payment, Canceled, None, now, id);
      }
    case Fail(payment, reason, now) =>
      if payment in s.payments && ClosePayment(s, payment, Failed, Some(reason), now).Ok? {
        ClosingNeedsNone(s, payment, Failed, Some(reason), now, id);
      }
    case ExpireSwept(payment, now) =>
      if payment in s.payments && IsOpen(s.payments[payment].status) {
        ClosingNeedsNone(s, payment, Expired, None, now, id);
      }
  }

  lemma PlanStepNeedsNone(s: State, step: Step)
    requires !Opens(step) && !Moves(step)
    ensures Apply(s, step).payments == s.payments
  {
  }

  /** A transition makes only its own payment need a voucher, and then brings it along. */
  lemma ActionVouches(s: State, id: Id, c: Callback, now: Moment, r: Request, digest: string)
    requires AllStamped(s.payments) && FindPayment(s, c) == Some(id) && AmountOk(c, s.payments[id])
    requires ApplyAction(s, id, c, now).Ok?
    requires Parse(r) == Recognised(c) && Authentic(r)
    ensures var p := ApplyAction(s, id, c, now).value.payments[id];
            NeedsVoucher(p) ==> NeedsVoucher(s.payments[id]) || Vouches(Receive(r, digest, now), id, p)
  {
    var p := s.payments[id];
    assert StampsAgree(p);
    ParsedIsWellFormed(r);
    if c.provider == Payme && c.action == Create {
      PaymeAmountRoundTrip(p.money, r.tiyin);
    }
  }

  lemma OnlyFoundMoves(s: State, id: Id, c: Callback, now: Moment)
    requires id in s.payments && ApplyAction(s, id, c, now).Ok?
    ensures id in ApplyAction(s, id, c, now).value.payments
    ensures ApplyAction(s, id, c, now).value.payments == s.payments[id := ApplyAction(s, id, c, now).value.payments[id]]
  {
  }

  /** The payments after a callback: as before, or as its authenticated action leaves them. */
  lemma DeliveredPayments(s: State, r: Request, digest: string, now: Moment)
    ensures var next := StateAfter(s, Deliver(s, r, digest, now)).payments;
            next == s.payments || (Parse(r).Recognised? && Acted(s, r, Parse(r).callback, now, next))
  {
    if Parse(r).Recognised? {
      ParsedIsWellFormed(r);
    }
  }

  ghost predicate Acted(s: State, r: Request, c: Callback, now: Moment, next: Payments) {
    var found := FindPayment(s, c);
    && Authentic(r) && found.Some? && AmountOk(c, s.payments[found.value])
    && ApplyAction(s, found.value, c, now).Ok?
    && next == ApplyAction(s, found.value, c, now).value.payments
  }

  ghost predicate Vouched(payments: Payments, next: Payments, step: Step, id: Id) {
    id in next && NeedsVoucher(next[id]) ==>
      (id in payments && NeedsVoucher(payments[id])) || Vouches(step, id, next[id])
  }

  lemma ActedVouches(s: State, r: Request, digest: string, now: Moment, id: Id, next: Payments)
    requires AllStamped(s.payments) && Parse(r).Recognised? && Acted(s, r, Parse(r).callback, now, next)
    ensures Vouched(s.payments, next, Receive(r, digest, now), id)
  {
    var c := Parse(r).callback;
    var found := FindPayment(s, c);
    OnlyFoundMoves(s, found.value, c, now);
    ActionVouches(s, found.value, c, now, r, digest);
  }

  lemma CallbackVouches(s: State, r: Request, digest: string, now: Moment, id: Id)
    requires AllStamped(s.payments)
    ensures Vouched(s.payments, StateAfter(s, Deliver(s, r, digest, now)).payments, Receive(r, digest, now), id)
  {
    var next := StateAfter(s, Deliver(s, r, digest, now)).payments;
    DeliveredPayments(s, r, digest, now);
    if next != s.payments {
      ActedVouches(s, r, digest, now, id, next);
    }
  }

  lemma StepVouches(s: State, step: Step, id: Id)
    requires AllStamped(s.payments) && id in Apply(s, step).payments
    ensures var p := Apply(s, step).payments[id];
            NeedsVoucher(p) ==> (id in s.payments && NeedsVoucher(s.payments[id])) || Vouches(step, id, p)
  {
    if Opens(step) {
      OpeningNeedsNone(s, step, id);
    } else if step.Receive? {
      CallbackVouches(s, step.request, step.digest, step.now, id);
    } else if Moves(step) {
      MovingNeedsNone(s, step, id);
    } else {
      PlanStepNeedsNone(s, step);
    }
  }

  lemma ReachableAdvances(plans: map<string, Plan>, providers: set<Provider>, steps: seq<Step>, step: Step)
    ensures var s := Run(Empty(plans, providers), steps);
            AllStamped(s.payments) && TableAdvances(s.payments, Apply(s, step).payments)
  {
    EmptyKeeps(plans, providers);
    RunKeeps(Empty(plans, providers), steps);
    ApplyKeeps(Run(Empty(plans, providers), steps), step);
  }

  lemma KeepsVoucher(steps: seq<Step>, last: Step, id: Id, p: Payment, q: Payment)
    requires HasVoucher(steps, id, p) && Advances(p, q) && NeedsVoucher(p)
    ensures HasVoucher(steps + [last], id, q)
  {
    var i :| 0 <= i < |steps| && Vouches(steps[i], id, p);
    assert Vouches((steps + [last])[i], id, q);
  }

  /** A payment that starts to need a voucher gets it from the step. */
  ghost predicate Brings(step: Step, was: map<Id, Payment>, now: map<Id, Payment>) {
    forall id: Id :: id in now && NeedsVoucher(now[id]) ==>
      (id in was && NeedsVoucher(was[id])) || Vouches(step, id, now[id])
  }

  lemma {:induction false} VouchersAlong(tables: seq<map<Id, Payment>>, steps: seq<Step>, n: nat, id: Id)
    requires |tables| == |steps| + 1 && tables[0] == map[] && n <= |steps|
    requires forall i :: 0 <= i < |steps| ==> TableAdvances(tables[i], tables[i + 1])
    requires forall i :: 0 <= i < |steps| ==> Brings(steps[i], tables[i], tables[i + 1])
    requires id in tables[n] && NeedsVoucher(tables[n][id])
    ensures HasVoucher(steps[..n], id, tables[n][id])
  {
    if n > 0 {
      var was, now, last := tables[n - 1], tables[n - 1 + 1], steps[n - 1];
      assert steps[..n] == steps[..n - 1] + [last];
      assert Brings(last, was, now) && TableAdvances(was, now);
      if Vouches(last, id, now[id]) {
        assert Vouches(steps[..n][n - 1], id, now[id]);
      } else {
        VouchersAlong(tables, steps, n - 1, id);
        KeepsVoucher(steps[..n - 1], last, id, was[id], now[id]);
      }
    }
  }

  lemma ReachableBrings(plans: map<string, Plan>, providers: set<Provider>, steps: seq<Step>, i: nat)
    requires i < |steps|
    ensures var was, now := Run(Empty(plans, providers), steps[..i]).payments,
                            Run(Empty(plans, providers), steps[..i + 1]).payments;
            TableAdvances(was, now) && Brings(steps[i], was, now)
  {
    var s := Run(Empty(plans, providers), steps[..i]);
    assert steps[..i + 1][..i] == steps[..i];
    ReachableAdvances(plans, providers, steps[..i], steps[i]);
    forall id: Id | id in Apply(s, steps[i]).payments && NeedsVoucher(Apply(s, steps[i]).payments[id])
      ensures (id in s.payments && NeedsVoucher(s.payments[id]))
              || Vouches(steps[i], id, Apply(s, steps[i]).payments[id])
    {
      StepVouches(s, steps[i], id);
    }
  }

  // ---------------------------------------------------------------- the step that paid

  predicate HasSucceeded(payments: Payments, id: Id) {
    id in payments && payments[id].status == Succeeded
  }

  /** An authenticated confirmation that names the payment; for all but Payme it carries the amount. */
  predicate Pays(step: Step, id: Id, p: Payment) {
    && step.Receive? && Authentic(step.request) && Parse(step.request).Recognised?
    && var c := Parse(step.request).callback;
       && c.provider == p.provider && c.action == Confirm && NamedBy(c, id, p)
       && (if p.provider == Payme then p.txnId.Some? && p.txnId.value != "" && c.txn == p.txnId
           else c.amount == Some(p.money))
  }

  /** Only a confirmation of the payment itself makes it succeed. */
  ghost predicate PaidBy(step: Step, was: Payments, now: Payments) {
    forall id: Id :: HasSucceeded(now, id) && !HasSucceeded(was, id) ==> id in was && Pays(step, id, was[id])
  }

  lemma OnlyConfirmPays(s: State, id: Id, c: Callback, now: Moment)
    requires id in s.payments && ApplyAction(s, id, c, now).Ok? && s.payments[id].status != Succeeded
    requires HasSucceeded(ApplyAction(s, id, c, now).value.payments, id)
    ensures c.action == Confirm
  {
  }

  lemma CallbackPays(s: State, r: Request, digest: string, now: Moment, id: Id)
    requires HasSucceeded(StateAfter(s, Deliver(s, r, digest, now)).payments, id) && !HasSucceeded(s.payments, id)
    ensures id in s.payments && Pays(Receive(r, digest, now), id, s.payments[id])
  {
    var c := Parse(r).callback;
    ParsedIsWellFormed(r);
    var found := FindPayment(s, c);
    assert found.Some? && ApplyAction(s, found.value, c, now).Ok?;
    OnlyFoundMoves(s, found.value, c, now);
    OnlyConfirmPays(s, id, c, now);
  }

  lemma NoNewSuccess(s: State, step: Step, id: Id)
    requires !step.Receive? && HasSucceeded(Apply(s, step).payments, id)
    ensures HasSucceeded(s.payments, id)
  {
    if Opens(step) {
      OpeningPaysNothing(s, step, id);
    } else if Moves(step) {
      MovingPaysNothing(s, step, id);
    } else {
      PlanStepNeedsNone(s, step);
    }
  }

  lemma OpeningPaysNothing(s: State, step: Step, id: Id)
    requires Opens(step) && HasSucceeded(Apply(s, step).payments, id)
    ensures HasSucceeded(s.payments, id)
  {
  }

  lemma MovingPaysNothing(s: State, step: Step, id: Id)
    requires Moves(step) && !step.Receive? && HasSucceeded(Apply(s, step).payments, id)
    ensures HasSucceeded(s.payments, id)
  {
  }

  lemma ReachablePaidBy(plans: map<string, Plan>, providers: set<Provider>, steps: seq<Step>, i: nat)
    requires i < |steps|
    ensures PaidBy(steps[i], Run(Empty(plans, providers), steps[..i]).payments,
                   Run(Empty(plans, providers), steps[..i + 1]).payments)
  {
    var s := Run(Empty(plans, providers), steps[..i]);
    assert steps[..i + 1][..i] == steps[..i];
    forall id: Id | HasSucceeded(Apply(s, steps[i]).payments, id) && !HasSucceeded(s.payments, id)
      ensures id in s.payments && Pays(steps[i], id, s.payments[id])
    {
      if steps[i].Receive? {
        CallbackPays(s, steps[i].request, steps[i].digest, steps[i].now, id);
      } else {
        NoNewSuccess(s, steps[i], id);
      }
    }
  }

  /** The step at which a payment came to succeed. */
  lemma {:induction false} FirstSuccess(tables: seq<Payments>, n: nat, id: Id) returns (i: nat)
    requires n < |tables| && tables[0] == map[] && HasSucceeded(tables[n], id)
    ensures i < n && HasSucceeded(tables[i + 1], id) && !HasSucceeded(tables[i], id)
    decreases n
  {
    if HasSucceeded(tables[n - 1], id) {
      i := FirstSuccess(tables, n - 1, id);
    } else {
      i := n - 1;
    }
  }

  lemma {:induction false} SuccessIsFinal(tables: seq<Payments>, i: nat, n: nat, id: Id)
    requires i <= n < |tables| && HasSucceeded(tables[i], id)
    requires forall k :: 0 <= k < |tables| - 1 ==> TableAdvances(tables[k], tables[k + 1])
    ensures HasSucceeded(tables[n], id) && tables[n][id] == tables[i][id]
    decreases n - i
  {
    if i < n {
      SuccessIsFinal(tables, i, n - 1, id);
      assert TableAdvances(tables[n - 1], tables[n - 1 + 1]);
    }
  }

  /**
   Step `i` is the authenticated confirmation that moved payment `id` to success, and the amount
   was vouched for: by that very step, or for Payme by an earlier create of the same transaction.
   */
  ghost predicate PaidAt(plans: map<string, Plan>, providers: set<Provider>, steps: seq<Step>, i: int, id: Id,
                         p: Payment) {
    && 0 <= i < |steps|
    && !HasSucceeded(Run(Empty(plans, providers), steps[..i]).payments, id)
    && HasSucceeded(Run(Empty(plans, providers), steps[..i + 1]).payments, id)
    && Pays(steps[i], id, p)
    && (if p.provider == Payme then HasVoucher(steps[..i], id, p) else Vouches(steps[i], id, p))
  }

  /** Pays and vouches read only what a success no longer changes. */
  lemma PaidRowStillPays(step: Step, id: Id, p: Payment, q: Payment)
    requires Advances(p, q) && Pays(step, id, p) && q.status == Succeeded && p.txnId == q.txnId
    ensures Pays(step, id, q) && (q.provider != Payme ==> Vouches(step, id, q))
  {
  }

  lemma PayingKeepsTransaction(s: State, step: Step, id: Id)
    requires HasSucceeded(Apply(s, step).payments, id) && !HasSucceeded(s.payments, id) && step.Receive?
    ensures id in s.payments && Apply(s, step).payments[id].txnId == s.payments[id].txnId
  {
    var c := Parse(step.request).callback;
    var found := FindPayment(s, c);
    CallbackPays(s, step.request, step.digest, step.now, id);
    assert found.Some? && ApplyAction(s, found.value, c, step.now).Ok?;
    OnlyFoundMoves(s, found.value, c, step.now);
    OnlyConfirmPays(s, id, c, step.now);
  }

  /** Every succeeded payment was paid by a confirmation of its own, for its exact amount. */
  lemma SucceededPaymentsAreVouched(plans: map<string, Plan>, providers: set<Provider>, steps: seq<Step>, id: Id)
    returns (i: nat)
    requires HasSucceeded(Run(Empty(plans, providers), steps).payments, id)
    ensures PaidAt(plans, providers, steps, i, id, Run(Empty(plans, providers), steps).payments[id])
  {
    var tables := seq(|steps| + 1, i requires 0 <= i <= |steps| => Run(Empty(plans, providers), steps[..i]).payments);
    forall i | 0 <= i < |steps|
      ensures TableAdvances(tables[i], tables[i + 1]) && Brings(steps[i], tables[i], tables[i + 1]) {
      ReachableBrings(plans, providers, steps, i);
    }
    assert steps[..|steps|] == steps;
    i := FirstSuccess(tables, |steps|, id);
    SuccessIsFinal(tables, i + 1, |steps|, id);
    ReachablePaidBy(plans, providers, steps, i);
    var p, q := tables[i][id], tables[i + 1][id];
    assert Advances(p, q);
    assert steps[..i + 1][..i] == steps[..i];
    PayingKeepsTransaction(Run(Empty(plans, providers), steps[..i]), steps[i], id);
    PaidRowStillPays(steps[i], id, p, q);
    if q.provider == Payme {
      VouchersAlong(tables, steps, i, id);
      StillVouched(steps[..i], id, p, q);
    }
  }

  lemma StillVouched(steps: seq<Step>, id: Id, p: Payment, q: Payment)
    requires HasVoucher(steps, id, p) && Advances(p, q) && p.txnId == q.txnId
    ensures HasVoucher(steps, id, q)
  {
    var i :| 0 <= i < |steps| && Vouches(steps[i], id, p);
    assert Vouches(steps[i], id, q);
  }
}
