/**
 The billing services as they work: methods that read and assign table rows in place. Each is
 proved against the transaction it implements, and keeps the invariant of all runs.
 */
module BillingService {
  import opened Base
  import opened Calendar
  import opened Billing
  import opened Adapters
  import opened Webhooks
  import opened BillingInvariant
  import opened BillingRuns
  import opened BillingSweeps
  import Spec = Billing
  import Callbacks = Webhooks

  class Database {
    var plans: map<string, Plan>
    var providers: set<Provider>
    var subscriptions: map<Id, Subscription>
    var payments: map<Id, Payment>
    var ledger: map<LedgerKey, LedgerRow>
    var events: seq<Event>

    ghost function Tables(): State
      reads this
    {
      State(plans, providers, subscriptions, payments, ledger, events)
    }

    ghost predicate Valid()
      reads this
    {
      Inv(Tables())
    }

    constructor (plans: map<string, Plan>, providers: set<Provider>)
      ensures Valid() && Tables() == Empty(plans, providers)
    {
      this.plans, this.providers := plans, providers;
      subscriptions, payments, ledger, events := map[], map[], map[], [];
      new;
      EmptyKeeps(plans, providers);
    }

    // -------------------------------------------------------------- queries

    method FindLive(tenant: Id) returns (r: Option<Id>)
      requires OneLive(subscriptions)
      ensures r == LiveOf(subscriptions, tenant)
    {
      if id: Id :| id in subscriptions && LiveRow(subscriptions, tenant, id) {
        r := Some(id);
      } else {
        r := None;
      }
    }

    method FindAwaiting(tenant: Id) returns (r: Option<Id>)
      requires OneAwaiting(subscriptions)
      ensures r == AwaitingOf(subscriptions, tenant)
    {
      if id: Id :| id in subscriptions && AwaitingRow(subscriptions, tenant, id) {
        r := Some(id);
      } else {
        r := None;
      }
    }

    method FindByKey(tenant: Id, key: IdempotencyKey) returns (r: Option<Id>)
      requires UniqueKeys(payments)
      ensures r == ByKey(payments, tenant, key)
    {
      if id: Id :| id in payments && KeyRow(payments, tenant, key, id) {
        r := Some(id);
      } else {
        r := None;
      }
    }

    method FindByTxn(provider: Provider, txn: string) returns (r: Option<Id>)
      requires UniqueTxns(payments)
      ensures r == ByTxn(payments, provider, txn)
    {
      if id: Id :| id in payments && TxnRow(payments, provider, txn, id) {
        r := Some(id);
      } else {
        r := None;
      }
    }

    // -------------------------------------------------------------- payment service

    method CreatePayment(tenant: Id, money: Money, target: Target, provider: Provider, key: IdempotencyKey,
                         newId: Id, checkout: Option<string>)
      returns (r: Outcome<Checkout>)
      requires UniqueKeys(payments)
      modifies this
      ensures match Spec.CreatePayment(old(Tables()), tenant, money, target, provider, key, newId, checkout)
              case Ok((t, c)) => r == Ok(c) && Tables() == t
              case Err(e) => r == Err(e) && Tables() == old(Tables())
    {
      if provider !in providers {
        return Err(NotFound);
      }
      if money.amount <= 0 {
        return Err(InvariantViolation);
      }
      var existing := FindByKey(tenant, key);
      if existing.Some? {
        var p := payments[existing.value];
        if p.money != money || p.target != target || p.provider != provider {
          return Err(Conflict);
        }
        return Ok(Checkout(existing.value, p.provider, p.checkoutUrl));
      }
      if newId in payments {
        return Err(IntegrityFailure);
      }
      if checkout.None? {
        return Err(ProviderFailure);
      }
      payments := payments[newId := Payment(tenant, target, money, provider, key, checkout.value,
                                            Created, None, None, None, None, None)];
      events := events + [PaymentCreated(newId, target)];
      r := Ok(Checkout(newId, provider, checkout.value));
    }

    method MarkPending(id: Id, txn: string, now: Moment) returns (r: Outcome<()>)
      requires id in payments && UniqueTxns(payments)
      modifies this`payments
      ensures match Spec.MarkPending(old(Tables()), id, txn, now)
              case Ok(t) => r.Ok? && Tables() == t
              case Err(e) => r == Err(e) && Tables() == old(Tables())
    {
      var p := payments[id];
      if !CanTransition(p.status, Pending) {
        return Err(InvariantViolation);
      }
      var taken := FindByTxn(p.provider, txn);
      if taken.Some? && taken.value != id {
        return Err(IntegrityFailure);
      }
      p := p.(txnId := Some(txn));
      p := p.(status := Pending);
      p := p.(pendingAt := Some(now));
      payments := payments[id := p];
      r := Ok(());
    }

    method MarkSucceeded(id: Id, now: Moment) returns (r: Outcome<()>)
      requires id in payments && OneLive(subscriptions)
      modifies this
      ensures match Spec.MarkSucceeded(old(Tables()), id, now)
              case Ok(t) => r.Ok? && Tables() == t
              case Err(e) => r == Err(e) && Tables() == old(Tables())
    {
      var p := payments[id];
      var previous := p.status;
      if !CanTransition(previous, Succeeded) {
        return Err(InvariantViolation);
      }
      var before := payments;
      payments := payments[id := p.(status := Succeeded, paidAt := Some(now))];
      if p.target.ForSubscription? {
        if !OwnsSubscription(subscriptions, p) {
          payments := before;
          return Err(NotFound);
        }
        ActivateSubscription(p.target.subscription, now);
      }
      events := events + [PaymentSucceeded(id, p.target, previous == Expired)];
      r := Ok(());
    }

    /** The live rows of the tenant other than `id`: the ones an activation replaces. */
    function Replaced(id: Id): set<Id>
      requires id in subscriptions
      reads this
    {
      set old' | old' in subscriptions && LiveRow(subscriptions, subscriptions[id].tenant, old') && old' != id
    }

    method ActivateSubscription(id: Id, now: Moment)
      requires id in subscriptions && OneLive(subscriptions)
      modifies this`subscriptions, this`events
      ensures subscriptions == ActivatedTable(plans, old(subscriptions), id, now)
      ensures events == old(events) + ActivationEvents(plans, old(subscriptions), id, now)
    {
      var start := now;
      var replaced := Replaced(id);
      ghost var before := subscriptions;
      ghost var prior := ReplacedBy(subscriptions, id);
      assert replaced == if prior.Some? then {prior.value} else {} by {
        ReplacedIsTheLiveOne(id);
      }
      var todo := replaced;
      var emitted := [];
      while todo != {}
        invariant todo <= replaced
        invariant todo == replaced ==> subscriptions == before && start == now && emitted == []
        invariant todo != replaced ==>
                    && prior.Some? && todo == {}
                    && subscriptions == before[prior.value := Superseded(before[prior.value], now)]
                    && start == ActivationStart(before[prior.value], before[id].plan, now)
                    && emitted == [SubscriptionReplaced(prior.value, id)]
        invariant events == old(events)
      {
        var old' :| old' in todo;
        var row := subscriptions[old'];
        if row.plan == subscriptions[id].plan && !Ended(row.periodEnd, start) {
          start := row.periodEnd;
        }
        subscriptions := subscriptions[old' := row.(status := Withdrawn, canceledAt := Some(now))];
        emitted := emitted + [SubscriptionReplaced(old', id)];
        todo := todo - {old'};
      }
      var active := Activated(plans, subscriptions[id], start);
      subscriptions := subscriptions[id := active];
      events := events + emitted + [SubscriptionActivated(id, active.plan, active.periodEnd)];
    }

    lemma ReplacedIsTheLiveOne(id: Id)
      requires id in subscriptions && OneLive(subscriptions)
      ensures Replaced(id) == match ReplacedBy(subscriptions, id) case Some(prior) => {prior} case None => {}
    {
    }

    method Close(id: Id, target: PaymentStatus, reason: Option<string>, now: Moment) returns (r: Outcome<()>)
      requires id in payments
      modifies this
      ensures match ClosePayment(old(Tables()), id, target, reason, now)
              case Ok(t) => r.Ok? && Tables() == t
              case Err(e) => r == Err(e) && Tables() == old(Tables())
    {
      var p := payments[id];
      if !CanTransition(p.status, target) {
        return Err(InvariantViolation);
      }
      var closed := p.(status := target);
      if reason.Some? {
        closed := closed.(failureCode := reason);
      }
      payments := payments[id := closed.(closedAt := Some(now))];
      if OwnsSubscription(subscriptions, p) {
        var sub := subscriptions[p.target.subscription];
        if sub.status == Awaiting {
          if target == Expired {
            subscriptions := subscriptions[p.target.subscription := sub.(status := Lapsed)];
          } else {
            subscriptions := subscriptions[p.target.subscription := sub.(status := Withdrawn, canceledAt := Some(now))];
          }
        }
      }
      events := events + [PaymentClosed(id, p.target, target)];
      r := Ok(());
    }

    method CancelPayment(tenant: Id, id: Id, now: Moment) returns (r: Outcome<()>)
      modifies this
      ensures match Spec.CancelPayment(old(Tables()), tenant, id, now)
              case Ok(t) => r.Ok? && Tables() == t
              case Err(e) => r == Err(e) && Tables() == old(Tables())
    {
      if id !in payments || payments[id].tenant != tenant {
        return Err(NotFound);
      }
      r := Close(id, Canceled, None, now);
    }

    /** One target of the expiry sweep, re-read under its lock; true if it expired. */
    method ExpireIfOpen(id: Id, now: Moment) returns (expired: bool)
      modifies this
      ensures ExpireCheckout(old(Tables()), id, now) == Ok(Tables())
      ensures expired <==> id in old(payments) && IsOpen(old(payments)[id].status)
    {
      if id !in payments || !IsOpen(payments[id].status) {
        return false;
      }
      var r := Close(id, Expired, None, now);
      expired := true;
    }

    // -------------------------------------------------------------- billing service

    /** Open a paid checkout; whatever fails, a half-opened subscription is rolled back. */
    method StartSubscription(tenant: Id, plan: string, provider: Provider, newSubscription: Id, newPayment: Id,
                             checkout: Option<string>, now: Moment)
      returns (r: Outcome<Checkout>)
      requires OneAwaiting(subscriptions) && UniqueKeys(payments)
      modifies this
      ensures match Spec.StartSubscription(old(Tables()), tenant, plan, provider, newSubscription, newPayment, checkout,
                                           now)
              case Ok((t, c)) => r == Ok(c) && Tables() == t
              case Err(e) => r == Err(e) && Tables() == old(Tables())
    {
      if plan !in plans || !plans[plan].isActive {
        return Err(NotFound);
      }
      if plans[plan].price == 0 {
        return Err(InvariantViolation);
      }
      var awaiting := FindAwaiting(tenant);
      if awaiting.Some? {
        if subscriptions[awaiting.value].plan != plan {
          return Err(Conflict);
        }
        r := OpenCheckout(awaiting.value, provider, newPayment, checkout);
      } else {
        if newSubscription in subscriptions {
          return Err(IntegrityFailure);
        }
        r := OpenNew(newSubscription, NewSubscription(plans[plan], tenant, plan, Awaiting, now), provider, newPayment,
                     checkout);
      }
    }

    method OpenNew(id: Id, row: Subscription, provider: Provider, newPayment: Id, checkout: Option<string>)
      returns (r: Outcome<Checkout>)
      requires UniqueKeys(payments)
      modifies this
      ensures match CheckoutFor(old(Tables().(subscriptions := subscriptions[id := row])), id, provider, newPayment,
                                checkout)
              case Ok((t, c)) => r == Ok(c) && Tables() == t
              case Err(e) => r == Err(e) && Tables() == old(Tables())
    {
      var before := subscriptions;
      subscriptions := subscriptions[id := row];
      r := OpenCheckout(id, provider, newPayment, checkout);
      if r.Err? {
        subscriptions := before;
      }
    }

    /** Keyed by the subscription, so a repeat replays the same checkout. */
    method OpenCheckout(id: Id, provider: Provider, newPayment: Id, checkout: Option<string>)
      returns (r: Outcome<Checkout>)
      requires id in subscriptions && UniqueKeys(payments)
      modifies this
      ensures match CheckoutFor(old(Tables()), id, provider, newPayment, checkout)
              case Ok((t, c)) => r == Ok(c) && Tables() == t
              case Err(e) => r == Err(e) && Tables() == old(Tables())
    {
      var sub := subscriptions[id];
      r := CreatePayment(sub.tenant, Money(sub.price, sub.currency), ForSubscription(id), provider, SubscriptionKey(id),
                         newPayment, checkout);
    }

    method CancelSubscription(tenant: Id, now: Moment) returns (r: Outcome<()>)
      requires OneLive(subscriptions)
      modifies this
      ensures match Spec.CancelSubscription(old(Tables()), tenant, now)
              case Ok(t) => r.Ok? && Tables() == t
              case Err(e) => r == Err(e) && Tables() == old(Tables())
    {
      var live := FindLive(tenant);
      if live.None? {
        return Err(NotFound);
      }
      var sub := subscriptions[live.value];
      subscriptions := subscriptions[live.value := sub.(cancelAtPeriodEnd := true, canceledAt := Some(now))];
      events := events + [SubscriptionCanceled(live.value, sub.plan)];
      r := Ok(());
    }

    method AutoSubscribe(tenant: Id, plan: string, newId: Id, now: Moment) returns (r: Outcome<()>)
      requires OneLive(subscriptions)
      modifies this
      ensures match Spec.AutoSubscribe(old(Tables()), tenant, plan, newId, now)
              case Ok(t) => r.Ok? && Tables() == t
              case Err(e) => r == Err(e) && Tables() == old(Tables())
    {
      if plan !in plans || !plans[plan].isActive {
        return Err(NotFound);
      }
      if plans[plan].price != 0 {
        return Err(InvariantViolation);
      }
      var existing := FindLive(tenant);
      if existing.Some? {
        return Ok(());
      }
      if newId in subscriptions {
        return Err(IntegrityFailure);
      }
      var status := if plans[plan].trialDays > 0 then Trialing else Active;
      var sub := NewSubscription(plans[plan], tenant, plan, status, now);
      subscriptions := subscriptions[newId := sub];
      events := events + [SubscriptionActivated(newId, plan, sub.periodEnd)];
      r := Ok(());
    }

    /** Period-end step for one subscription: a free plan rolls forward, any other closes. */
    method CloseEndedPeriod(tenant: Id, id: Id, fallback: Option<string>, newId: Id, now: Moment)
      returns (r: Outcome<bool>)
      requires OneLive(subscriptions)
      modifies this
      ensures match Spec.CloseEndedPeriod(old(Tables()), tenant, id, fallback, newId, now)
              case Ok((t, acted)) => r == Ok(acted) && Tables() == t
              case Err(e) => r == Err(e) && Tables() == old(Tables())
    {
      if !LiveRow(subscriptions, tenant, id) || !Ended(subscriptions[id].periodEnd, now) {
        return Ok(false);
      }
      var sub := subscriptions[id];
      if sub.plan in plans && plans[sub.plan].price == 0 && !sub.cancelAtPeriodEnd {
        var start, end := RollPeriods(sub.periodStart, sub.periodEnd, now, plans[sub.plan].period);
        subscriptions := subscriptions[id := sub.(periodStart := start, periodEnd := end, status := Active)];
        return Ok(true);
      }
      var beforeSubscriptions, beforeEvents := subscriptions, events;
      UpdateKeepsSlotsLive(subscriptions, id, EndedRow(sub, now));
      var ended := sub.(status := if sub.cancelAtPeriodEnd then Withdrawn else Lapsed);
      if sub.canceledAt.None? && sub.cancelAtPeriodEnd {
        ended := ended.(canceledAt := Some(now));
      }
      subscriptions := subscriptions[id := ended];
      events := events + [SubscriptionEnded(id, sub.plan, ended.status)];
      assert Tables() == EndPeriod(old(Tables()), id, now);
      if fallback.Some? {
        var started := AutoSubscribe(tenant, fallback.value, newId, now);
        if started == Err(IntegrityFailure) {
          subscriptions, events := beforeSubscriptions, beforeEvents;
          return Err(IntegrityFailure);
        }
      }
      r := Ok(true);
    }

    /** The roll-forward loop. */
    method RollPeriods(periodStart: Moment, periodEnd: Moment, now: Moment, period: Period)
      returns (start: Moment, end: Moment)
      ensures (start, end) == RollForward(periodStart, periodEnd, now, period)
    {
      start, end := periodStart, periodEnd;
      while Ended(end, now)
        invariant RollForward(start, end, now, period) == RollForward(periodStart, periodEnd, now, period)
        decreases PeriodsToSkip(end, now, period)
      {
        RollForwardStep(start, end, now, period);
        start := end;
        end := PeriodEnd(start, period);
      }
      RollForwardStep(start, end, now, period);
    }

    // -------------------------------------------------------------- callbacks

    method FindPayment(c: Callback) returns (r: Option<Id>)
      requires UniqueTxns(payments)
      ensures r == Callbacks.FindPayment(Tables(), c)
    {
      if c.reference.Some? && c.reference.value in payments && payments[c.reference.value].provider == c.provider {
        return c.reference;
      }
      if c.txn.Some? && c.txn.value != "" {
        r := FindByTxn(c.provider, c.txn.value);
        return;
      }
      r := None;
    }

    method ApplyAction(id: Id, c: Callback, now: Moment) returns (r: Outcome<()>)
      requires id in payments && OneLive(subscriptions) && UniqueTxns(payments)
      modifies this
      ensures match Callbacks.ApplyAction(old(Tables()), id, c, now)
              case Ok(t) => r.Ok? && Tables() == t
              case Err(e) => r == Err(e) && Tables() == old(Tables())
    {
      match c.action
      case Create =>
        if payments[id].status != Created {
          return Err(InvariantViolation);
        }
        r := MarkPending(id, if c.txn.Some? then c.txn.value else "", now);
      case Confirm =>
        r := MarkSucceeded(id, now);
      case Cancel =>
        r := Close(id, Canceled, c.reason, now);
      case _ =>
        r := Err(InvariantViolation);
    }

    function Row(id: Option<Id>): Option<Answered>
      reads this
    {
      if id.Some? && id.value in payments then Some(Answered(id.value, payments[id.value])) else None
    }

    /** Route a claimed callback and settle its ledger row; the key is claimed before anything else. */
    method ProcessTransition(c: Callback, now: Moment) returns (r: Outcome<CallbackOutcome>)
      requires OneLive(subscriptions) && UniqueTxns(payments) && KeyOf(c) !in ledger
      modifies this
      ensures match Transition(old(Tables()), c, now)
              case Ok((t, row, outcome)) => r == Ok(outcome) && Tables() == Journal(t, KeyOf(c), row)
              case Err(e) => r == Err(e) && Tables() == old(Tables())
    {
      var payment := FindPayment(c);
      if payment.None? {
        ledger := ledger[KeyOf(c) := LedgerRow(RejectedNotFound, None)];
        return Ok(CallbackOutcome(UnknownPayment, None));
      }
      if !AmountOk(c, payments[payment.value]) {
        ledger := ledger[KeyOf(c) := LedgerRow(RejectedAmount, payment)];
        return Ok(CallbackOutcome(AmountMismatch, Row(payment)));
      }
      r := ActClaimed(payment.value, c, now);
    }

    /** Claim the key, act, and settle the row; an exception takes the claim with it. */
    method ActClaimed(id: Id, c: Callback, now: Moment) returns (r: Outcome<CallbackOutcome>)
      requires id in payments && OneLive(subscriptions) && UniqueTxns(payments) && KeyOf(c) !in ledger
      modifies this
      ensures match Act(old(Tables()), id, c, now)
              case Ok((t, row, outcome)) => r == Ok(outcome) && Tables() == Journal(t, KeyOf(c), row)
              case Err(e) => r == Err(e) && Tables() == old(Tables())
    {
      ghost var s := Tables();
      var before := ledger;
      ledger := ledger[KeyOf(c) := LedgerRow(Received, Some(id))];
      var applied := ApplyClaimed(id, c, now, before);
      r := Settle(c, id, applied, before, s, Callbacks.ApplyAction(s, id, c, now));
    }

    /** The action while its key is claimed: the claim is invisible to it. */
    method ApplyClaimed(id: Id, c: Callback, now: Moment, ghost before: map<LedgerKey, LedgerRow>)
      returns (r: Outcome<()>)
      requires id in payments && OneLive(subscriptions) && UniqueTxns(payments)
      modifies this
      ensures match Callbacks.ApplyAction(old(Tables()).(ledger := before), id, c, now)
              case Ok(t) => r.Ok? && Tables() == t.(ledger := old(ledger))
              case Err(e) => r == Err(e) && Tables() == old(Tables())
    {
      ActionIgnoresLedger(Tables().(ledger := before), ledger, id, c, now);
      r := ApplyAction(id, c, now);
    }

    /** Record what became of a claimed callback whose action led from `s` to `next`. */
    method Settle(c: Callback, id: Id, applied: Outcome<()>, before: map<LedgerKey, LedgerRow>,
                  ghost s: State, ghost next: Outcome<State>) returns (r: Outcome<CallbackOutcome>)
      requires s.ledger == before && ledger == before[KeyOf(c) := LedgerRow(Received, Some(id))]
      requires match next
               case Ok(t) => applied.Ok? && t.ledger == before && Tables() == t.(ledger := ledger)
               case Err(e) => applied == Err(e) && Tables() == s.(ledger := ledger)
      modifies this`ledger
      ensures match Conclude(s, id, next)
              case Ok((t, row, outcome)) => r == Ok(outcome) && Tables() == Journal(t, KeyOf(c), row)
              case Err(e) => r == Err(e) && Tables() == s
    {
      match applied
      case Ok(_) =>
        ledger := ledger[KeyOf(c) := LedgerRow(Processed, Some(id))];
        r := Ok(CallbackOutcome(Success, Row(Some(id))));
      case Err(InvariantViolation) =>
        ledger := ledger[KeyOf(c) := LedgerRow(FailedState, Some(id))];
        r := Ok(CallbackOutcome(InvalidState, Row(Some(id))));
      case Err(e) =>
        ledger := before;
        r := Err(e);
    }

    /** One callback end to end; None is an exception, and the transaction is rolled back. */
    method Process(r: Request, digest: string, now: Moment) returns (reply: Option<Body>)
      requires OneLive(subscriptions) && UniqueTxns(payments)
      modifies this
      ensures match Deliver(old(Tables()), r, digest, now)
              case Replied(t, body) => reply == Some(body) && Tables() == t
              case Raised => reply == None && Tables() == old(Tables())
    {
      if RequestProvider(r) !in providers || !Parse(r).Recognised? {
        return None;
      }
      var c := Parse(r).callback;
      if ReadOnly(c.action) {
        var outcome := Inspect(c);
        if AnswerRaises(r, c.action, outcome) {
          return None;
        }
        var body := BuildAnswer(r, c.action, outcome);
        return Some(body);
      }
      if !c.authentic {
        var key := Rejected(c.provider, digest);
        if key !in ledger {
          ledger := ledger[key := LedgerRow(BadSignature, None)];
        }
        var body := BuildAnswer(r, c.action, CallbackOutcome(InvalidSignature, None));
        return Some(body);
      }
      if KeyOf(c) in ledger {
        var row := ledger[KeyOf(c)];
        var body := BuildAnswer(r, c.action, ReplayRow(row.status, Row(row.payment)));
        return Some(body);
      }
      var processed := ProcessTransition(c, now);
      if processed.Err? {
        return None;
      }
      var body := BuildAnswer(r, c.action, processed.value);
      reply := Some(body);
    }

    /** Check and status callbacks: nothing is written. */
    method Inspect(c: Callback) returns (outcome: CallbackOutcome)
      requires UniqueTxns(payments)
      ensures outcome == HandleReadOnly(Tables(), c)
    {
      if !c.authentic {
        return CallbackOutcome(InvalidSignature, None);
      }
      var payment := FindPayment(c);
      if payment.None? {
        return CallbackOutcome(UnknownPayment, None);
      }
      var p := payments[payment.value];
      if !AmountOk(c, p) {
        return CallbackOutcome(AmountMismatch, Row(payment));
      }
      if c.action == Check && !IsOpen(p.status) {
        return CallbackOutcome(InvalidState, Row(payment));
      }
      outcome := CallbackOutcome(Success, Row(payment));
    }

    // -------------------------------------------------------------- steps and sweeps

    /** Any step of a run, executed in place: the tables follow the protocol and keep its invariant. */
    method Execute(step: Step)
      requires Valid()
      modifies this
      ensures Valid() && Tables() == Apply(old(Tables()), step)
    {
      ApplyKeeps(Tables(), step);
      if Opens(step) {
        ExecuteOpening(step);
      } else if step.Receive? {
        ExecuteReceipt(step.request, step.digest, step.now);
      } else if Moves(step) {
        ExecuteClosing(step);
      } else {
        ExecutePlanStep(step);
      }
    }

    method ExecuteOpening(step: Step)
      requires Valid() && Opens(step)
      modifies this
      ensures Tables() == Apply(old(Tables()), step)
    {
      match step
      case TakePayment(tenant, money, purpose, reference, provider, key, newPayment, checkout) =>
        var _ := CreatePayment(tenant, money, ForCaller(purpose, reference), provider, CallerKey(key), newPayment,
                               checkout);
      case Start(tenant, plan, provider, newSubscription, newPayment, checkout, now) =>
        var _ := StartSubscription(tenant, plan, provider, newSubscription, newPayment, checkout, now);
    }

    method ExecuteReceipt(request: Request, digest: string, now: Moment)
      requires Valid()
      modifies this
      ensures Tables() == Apply(old(Tables()), Receive(request, digest, now))
    {
      var _ := Process(request, digest, now);
    }

    method ExecuteClosing(step: Step)
      requires Valid() && Moves(step) && !step.Receive?
      modifies this
      ensures Tables() == Apply(old(Tables()), step)
    {
      match step
      case CancelOpen(tenant, payment, now) =>
        var _ := CancelPayment(tenant, payment, now);
      case Fail(payment, reason, now) =>
        if payment in payments {
          var _ := Close(payment, Failed, Some(reason), now);
        }
      case ExpireSwept(payment, now) =>
        var _ := ExpireIfOpen(payment, now);
    }

    method ExecutePlanStep(step: Step)
      requires Valid() && !Opens(step) && !Moves(step)
      modifies this
      ensures Tables() == Apply(old(Tables()), step)
    {
      match step
      case CancelPlan(tenant, now) =>
        var _ := CancelSubscription(tenant, now);
      case AutoStart(tenant, plan, newSubscription, now) =>
        var _ := AutoSubscribe(tenant, plan, newSubscription, now);
      case EndSwept(tenant, subscription, fallback, newSubscription, now) =>
        var _ := CloseEndedPeriod(tenant, subscription, fallback, newSubscription, now);
      case Catalogue(newPlans, newProviders) =>
        plans, providers := newPlans, newProviders;
    }

    /** The expiry sweep: each scanned target in its own transaction, skipped if it moved meanwhile. */
    method ExpireStaleCheckouts(targets: seq<Id>, now: Moment) returns (expired: nat)
      requires Valid()
      modifies this
      ensures Valid() && Tables() == ExpirySweep(old(Tables()), targets, now)
      ensures expired == ExpiredBy(old(Tables()), targets, now)
    {
      ghost var s := Tables();
      expired := 0;
      for i := 0 to |targets|
        invariant Valid() && Tables() == ExpirySweep(s, targets[..i], now)
        invariant expired == ExpiredBy(s, targets[..i], now)
      {
        assert targets[..i + 1] == targets[..i] + [targets[i]];
        var acted := ExpireLocked(targets[i], now, s, targets[..i]);
        expired := expired + acted;
      }
      assert targets[..|targets|] == targets;
    }

    /** One target's transaction, when the targets in `done` have had theirs. */
    method ExpireLocked(id: Id, now: Moment, ghost start: State, ghost done: seq<Id>) returns (expired: nat)
      requires Valid() && Tables() == ExpirySweep(start, done, now)
      modifies this
      ensures Valid() && Tables() == ExpirySweep(start, done + [id], now)
      ensures ExpiredBy(start, done + [id], now) == ExpiredBy(start, done, now) + expired
    {
      SweepTurn(start, done, id, now);
      ApplyKeeps(Tables(), ExpireSwept(id, now));
      var acted := ExpireIfOpen(id, now);
      expired := if acted then 1 else 0;
    }

    /** The period-end sweep; an exception in one target's transaction ends the sweep. */
    method ExpireEndedSubscriptions(targets: seq<Due>, fallback: Option<string>, now: Moment)
      returns (acted: nat, done: nat)
      requires Valid()
      modifies this
      ensures Valid() && done <= |targets|
      ensures Tables() == EndSweep(old(Tables()), targets[..done], fallback, now)
      ensures AllEnd(old(Tables()), targets[..done], fallback, now)
      ensures acted == EndedBy(old(Tables()), targets[..done], fallback, now)
      ensures done < |targets| ==> EndOf(Tables(), targets[done], fallback, now).Err?
    {
      ghost var s := Tables();
      acted, done := 0, 0;
      while done < |targets|
        invariant Valid() && done <= |targets|
        invariant Tables() == EndSweep(s, targets[..done], fallback, now)
        invariant AllEnd(s, targets[..done], fallback, now)
        invariant acted == EndedBy(s, targets[..done], fallback, now)
      {
        var more := EndLocked(targets[done], fallback, now, s, targets[..done]);
        if more.None? {
          break;
        }
        assert targets[..done + 1] == targets[..done] + [targets[done]];
        acted := acted + more.value;
        done := done + 1;
      }
    }

    /** One target's transaction, when the targets in `done` have had theirs; None is an exception. */
    method EndLocked(due: Due, fallback: Option<string>, now: Moment, ghost start: State, ghost done: seq<Due>)
      returns (acted: Option<nat>)
      requires Valid() && Tables() == EndSweep(start, done, fallback, now) && AllEnd(start, done, fallback, now)
      modifies this
      ensures Valid()
      ensures acted.None? ==> Tables() == old(Tables()) && EndOf(Tables(), due, fallback, now).Err?
      ensures acted.Some? ==>
                && Tables() == EndSweep(start, done + [due], fallback, now)
                && AllEnd(start, done + [due], fallback, now)
                && EndedBy(start, done + [due], fallback, now) == EndedBy(start, done, fallback, now) + acted.value
    {
      ghost var before := Tables();
      var r := CloseEndedPeriod(due.tenant, due.subscription, fallback, due.newSubscription, now);
      assert r.Ok? <==> EndOf(before, due, fallback, now).Ok?;
      if r.Err? {
        return None;
      }
      TargetEnded(start, done, due, fallback, now);
      acted := Some(if r.value then 1 else 0);
    }
  }

  lemma ActionIgnoresLedger(s: State, ledger: map<LedgerKey, LedgerRow>, id: Id, c: Callback, now: Moment)
    requires id in s.payments
    ensures Callbacks.ApplyAction(s.(ledger := ledger), id, c, now)
            == match Callbacks.ApplyAction(s, id, c, now)
               case Ok(t) => Ok(t.(ledger := ledger))
               case Err(e) => Err(e)
  {
  }

  lemma UpdateKeepsSlotsLive(subs: map<Id, Subscription>, id: Id, next: Subscription)
    requires OneLive(subs) && id in subs && next.tenant == subs[id].tenant && !IsLive(next.status)
    ensures OneLive(subs[id := next])
  {
    var now := subs[id := next];
    assert forall tenant, a :: LiveRow(now, tenant, a) ==> LiveRow(subs, tenant, a);
  }
}
