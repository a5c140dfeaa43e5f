/** What the billing protocol promises its users and providers, over all runs. */
module BillingTheorems {
  import opened Base
  import opened Calendar
  import opened Billing
  import opened Adapters
  import opened Numerals
  import opened Webhooks
  import opened BillingInvariant
  import opened BillingRuns

  // ---------------------------------------------------------------- reachable states

  /**
   In every reachable state a tenant has at most one live and one awaiting subscription, and a
   checkout is open exactly while its subscription is awaiting.
   */
  lemma ReachableTablesAgree(plans: map<string, Plan>, providers: set<Provider>, steps: seq<Step>)
    ensures var s := Run(Empty(plans, providers), steps);
            && (forall tenant, a, b ::
                  LiveRow(s.subscriptions, tenant, a) && LiveRow(s.subscriptions, tenant, b) ==> a == b)
            && (forall tenant, a, b ::
                  AwaitingRow(s.subscriptions, tenant, a) && AwaitingRow(s.subscriptions, tenant, b) ==> a == b)
            && (forall id :: id in s.payments && s.payments[id].target.ForSubscription? ==>
                  var p := s.payments[id];
                  && OwnsSubscription(s.subscriptions, p)
                  && var status := s.subscriptions[p.target.subscription].status;
                     && (IsOpen(p.status) <==> status == Awaiting)
                     && (p.status == Expired ==> status == Lapsed)
                     && (p.status == Failed || p.status == Canceled ==> status == Withdrawn)
                     && (IsLive(status) ==> p.status == Succeeded))
            && (forall id ::
                  id in s.subscriptions && s.subscriptions[id].status == Awaiting ==> HasCheckout(s.payments, id))
  {
    EmptyKeeps(plans, providers);
    RunKeeps(Empty(plans, providers), steps);
    var s := Run(Empty(plans, providers), steps);
    forall id | id in s.payments ensures PaymentAgrees(s.subscriptions, s.payments[id]) {
    }
  }

  /** A payment's events are one of five histories; a success follows a closing only late, after expiry. */
  lemma ReachableHistories(plans: map<string, Plan>, providers: set<Provider>, steps: seq<Step>, id: Id)
    ensures var s := Run(Empty(plans, providers), steps);
            PaymentLog(s.events, id) == LogOf(s.payments, id)
  {
    EmptyKeeps(plans, providers);
    RunKeeps(Empty(plans, providers), steps);
  }

  // ---------------------------------------------------------------- repeated callbacks

  predicate ChangesState(r: Request) {
    Parse(r).Recognised? && Authentic(r) && !ReadOnly(Parse(r).callback.action)
  }

  function LedgerKeyOf(r: Request): LedgerKey
    requires Parse(r).Recognised?
  {
    KeyOf(Parse(r).callback)
  }

  /** A first answer is already what a replay from the committed row would say. */
  lemma FirstAnswerIsReplay(s: State, r: Request, c: Callback, now: Moment)
    requires Transition(s, c, now).Ok?
    ensures var (next, row, outcome) := Transition(s, c, now).value;
            Answer(r, c.action, outcome) == Answer(r, c.action, Replay(next, row))
  {
    match FindPayment(s, c)
    case None =>
    case Some(id) =>
      if AmountOk(c, s.payments[id]) && ApplyAction(s, id, c, now).Ok? {
        assert id in ApplyAction(s, id, c, now).value.payments;
      }
  }

  /** After an answered delivery its key is in the ledger and the answer is the row's replay. */
  lemma AnsweredFromLedger(s: State, r: Request, digest: string, now: Moment)
    requires ChangesState(r) && Deliver(s, r, digest, now).Replied?
    ensures var d := Deliver(s, r, digest, now);
            && LedgerKeyOf(r) in d.state.ledger
            && d.body == Answer(r, Parse(r).callback.action, Replay(d.state, d.state.ledger[LedgerKeyOf(r)]))
  {
    ParsedIsWellFormed(r);
    DispatchedFromLedger(s, r, Parse(r).callback, digest, now);
  }

  lemma DispatchedFromLedger(s: State, r: Request, c: Callback, digest: string, now: Moment)
    requires c.authentic && !ReadOnly(c.action) && Dispatch(s, r, c, digest, now).Replied?
    ensures var d := Dispatch(s, r, c, digest, now);
            && KeyOf(c) in d.state.ledger
            && d.body == Answer(r, c.action, Replay(d.state, d.state.ledger[KeyOf(c)]))
  {
    if KeyOf(c) !in s.ledger {
      FirstAnswerIsReplay(s, r, c, now);
    }
  }

  /** The transaction a create opened has been performed, canceled or expired meanwhile. */
  ghost predicate CreateHasMoved(first: State, later: State, r: Request)
    requires Parse(r).Recognised?
  {
    && r.PaymeCall? && Parse(r).callback.action == Create
    && LedgerKeyOf(r) in first.ledger
    && var row := first.ledger[LedgerKeyOf(r)];
       && row.status == Processed && row.payment.Some?
       && row.payment.value in first.payments && first.payments[row.payment.value].status == Pending
       && row.payment.value in later.payments && later.payments[row.payment.value].status != Pending
  }

  /** Replaying one ledger row in a later state. */
  lemma ReplayIsStable(first: State, later: State, r: Request)
    requires Ledgered(first.ledger, first.payments) && AllStamped(first.payments) && AllStamped(later.payments)
    requires Evolves(first, later) && ChangesState(r) && LedgerKeyOf(r) in first.ledger
    ensures LedgerKeyOf(r) in later.ledger
    ensures var action := Parse(r).callback.action;
            var before := Answer(r, action, Replay(first, first.ledger[LedgerKeyOf(r)]));
            var after := Answer(r, action, Replay(later, later.ledger[LedgerKeyOf(r)]));
            && (before == after <==> !CreateHasMoved(first, later, r))
            && (CreateHasMoved(first, later, r) ==> after == PaymeError(-31008, r.rpcId))
  {
    var key := LedgerKeyOf(r);
    var row := first.ledger[key];
    ParsedIsWellFormed(r);
    assert RowAgrees(first.payments, key, row);
    if row.payment.Some? {
      var p, q := first.payments[row.payment.value], later.payments[row.payment.value];
      assert Advances(p, q) && StampsAgree(p) && StampsAgree(q);
      AnswerIsStable(r, Parse(r).callback.action, row, row.payment.value, p, q);
    }
  }

  /** The same for one row and the payment it names, before and after. */
  lemma AnswerIsStable(r: Request, action: Action, row: LedgerRow, id: Id, p: Payment, q: Payment)
    requires Advances(p, q) && StampsAgree(p) && StampsAgree(q) && !ReadOnly(action) && row.status != Received
    requires row.status == Processed ==> ProcessedAgrees(p, action)
    ensures var before := Answer(r, action, ReplayRow(row.status, Some(Answered(id, p))));
            var after := Answer(r, action, ReplayRow(row.status, Some(Answered(id, q))));
            var moved := r.PaymeCall? && action == Create && row.status == Processed
                         && p.status == Pending && q.status != Pending;
            && (before == after <==> !moved)
            && (moved ==> after == PaymeError(-31008, r.rpcId))
  {
  }

  /**
   An authenticated state-changing callback acts at most once: delivering it again, after any
   other steps, changes nothing and gets the first answer, with one exception. A repeated Payme
   CreateTransaction whose transaction is no longer open is answered "unable to perform".
   */
  lemma RepeatedDelivery(s: State, r: Request, digest: string, now: Moment, steps: seq<Step>,
                         digestAgain: string, later: Moment)
    requires Inv(s) && ChangesState(r) && Deliver(s, r, digest, now).Replied?
    requires RequestProvider(r) in Run(Deliver(s, r, digest, now).state, steps).providers
    ensures var first := Deliver(s, r, digest, now);
            var t := Run(first.state, steps);
            var again := Deliver(t, r, digestAgain, later);
            && again.Replied? && again.state == t
            && (again.body == first.body <==> !CreateHasMoved(first.state, t, r))
            && (CreateHasMoved(first.state, t, r) ==> again.body == PaymeError(-31008, r.rpcId))
  {
    var first := Deliver(s, r, digest, now).state;
    DeliverKeeps(s, r, digest, now);
    RunKeeps(first, steps);
    AnsweredFromLedger(s, r, digest, now);
    ReplayIsStable(first, Run(first, steps), r);
    ParsedIsWellFormed(r);
  }

  /** Nor does any other authenticated request with the same key ever act. */
  lemma SameKeyNeverActsAgain(s: State, r: Request, digest: string, now: Moment, steps: seq<Step>, other: Request,
                              otherDigest: string, later: Moment)
    requires Inv(s) && ChangesState(r) && Deliver(s, r, digest, now).Replied?
    requires ChangesState(other) && LedgerKeyOf(other) == LedgerKeyOf(r)
    ensures var t := Run(Deliver(s, r, digest, now).state, steps);
            StateAfter(t, Deliver(t, other, otherDigest, later)) == t
  {
    var first := Deliver(s, r, digest, now).state;
    DeliverKeeps(s, r, digest, now);
    RunKeeps(first, steps);
    AnsweredFromLedger(s, r, digest, now);
    ParsedIsWellFormed(other);
  }

  /** A first CreateTransaction for an unopened payment with the right amount. */
  ghost predicate OpensTransaction(s: State, r: Request, id: Id) {
    && ChangesState(r) && r.PaymeCall? && Parse(r).callback.action == Create
    && RequestProvider(r) in s.providers && LedgerKeyOf(r) !in s.ledger
    && Parse(r).callback.reference == Some(id) && id in s.payments && s.payments[id].provider == Payme
    && s.payments[id].status == Created && AmountOk(Parse(r).callback, s.payments[id])
    && r.txn.Some? && ByTxn(s.payments, Payme, r.txn.value).None?
  }

  lemma FirstCreateOpens(s: State, r: Request, digest: string, now: Moment, id: Id)
    requires OpensTransaction(s, r, id)
    ensures var first := Deliver(s, r, digest, now);
            && first.Replied? && first.body.PaymeAnswer?
            && first.state.providers == s.providers
            && LedgerKeyOf(r) in first.state.ledger
            && first.state.ledger[LedgerKeyOf(r)] == LedgerRow(Processed, Some(id))
            && id in first.state.payments && first.state.payments[id].status == Pending
            && first.state.payments == s.payments[id := OpenedRow(s.payments[id], r.txn.value, now)]
            && first.state.ledger == s.ledger[LedgerKeyOf(r) := LedgerRow(Processed, Some(id))]
  {
    ParsedIsWellFormed(r);
  }

  /** The exception is real: an expiry in between makes the repeated create fail. */
  lemma RepeatedCreateAfterExpiry(s: State, r: Request, digest: string, now: Moment, id: Id)
    requires Inv(s) && OpensTransaction(s, r, id)
    ensures var first := Deliver(s, r, digest, now);
            && first.Replied? && first.body.PaymeAnswer?
            && var expired := Run(first.state, [ExpireSwept(id, now)]);
               Deliver(expired, r, digest, now) == Replied(expired, PaymeError(-31008, r.rpcId))
  {
    FirstCreateOpens(s, r, digest, now, id);
    var first := Deliver(s, r, digest, now).state;
    assert [ExpireSwept(id, now)][..0] == [];
    assert Run(first, []) == first;
    RepeatedDelivery(s, r, digest, now, [ExpireSwept(id, now)], digest, now);
  }

  /** An authenticated CheckTransaction for the stored transaction of a payment. */
  ghost predicate AsksStatusOf(s: State, r: Request, id: Id) {
    && r.PaymeCall? && Authentic(r) && Parse(r).Recognised? && Parse(r).callback.action == Status
    && Payme in s.providers
    && r.txn.Some? && r.txn.value != "" && TxnRow(s.payments, Payme, r.txn.value, id)
  }

  /** The stored reason of a closed payment can be reported: it is no number, or a proper one. */
  predicate Reportable(p: Payment) {
    || !IsClosing(p.status) || p.failureCode.None?
    || !LooksNumeric(p.failureCode.value) || Convertible(p.failureCode.value)
  }

  /**
   A CheckTransaction of a known transaction is answered exactly if the payment's reason can be
   reported; otherwise it ends in an exception. The report fits the payment's history: the state
   tells open, performed and canceled apart; a perform time belongs to a performed transaction, a
   reason to a canceled one, and a performed one shows a cancel time only if it had expired before
   it was paid.
   */
  lemma StatusReportIsConsistent(s: State, r: Request, digest: string, now: Moment, id: Id)
    requires Inv(s) && AsksStatusOf(s, r, id)
    ensures var d, p := Deliver(s, r, digest, now), s.payments[id];
            && (d.Replied? <==> Reportable(p))
            && (d.Replied? ==> d.state == s && d.body.PaymeAnswer? && d.body.result.Report?
                               && ReportFits(s, d.body.result, id))
  {
    StatusDelivered(s, r, digest, now, id);
    ReasonReportedExactly(s.payments[id]);
    if Reportable(s.payments[id]) {
      RenderedReportFits(s, id);
    }
  }

  function ReportOf(id: Id, p: Payment): PaymeResult {
    PaymeSuccess(Status, Some(Answered(id, p)))
  }

  lemma StatusDelivered(s: State, r: Request, digest: string, now: Moment, id: Id)
    requires UniqueTxns(s.payments) && AsksStatusOf(s, r, id)
    ensures Deliver(s, r, digest, now) ==
            if PaymeReason(s.payments[id]).None? then Raised
            else Replied(s, PaymeAnswer(ReportOf(id, s.payments[id]), r.rpcId))
  {
    var c := Parse(r).callback;
    assert FindPayment(s, c) == ByTxn(s.payments, Payme, r.txn.value) == Some(id);
  }

  lemma RenderedReportFits(s: State, id: Id)
    requires Inv(s) && id in s.payments && s.payments[id].txnId.Some? && Reportable(s.payments[id])
    ensures ReportFits(s, ReportOf(id, s.payments[id]), id)
  {
    var p := s.payments[id];
    assert StampsAgree(p);
    assert PaymentLog(s.events, id) == LogOf(s.payments, id) == ExpectedLog(id, p);
    if p.status == Succeeded && p.closedAt.Some? {
      assert ExpectedLog(id, p)[1] == PaymentClosed(id, p.target, Expired);
    }
  }

  ghost predicate ReportFits(s: State, report: PaymeResult, id: Id)
    requires report.Report? && id in s.payments
  {
    var p := s.payments[id];
    && report.transaction == id
    && (report.state == 1 <==> p.status == Pending)
    && (report.state == 2 <==> p.status == Succeeded)
    && (report.state == -1 <==> IsClosing(p.status))
    && report.createTime == Millis(p.pendingAt)
    && report.performTime == Millis(p.paidAt) && (report.performTime != 0 ==> report.state == 2)
    && report.cancelTime == Millis(p.closedAt)
    && (report.cancelTime != 0 ==>
          report.state == -1 || PaymentClosed(id, p.target, Expired) in PaymentLog(s.events, id))
    && (report.reason != NoReason ==> report.state == -1)
    && (report.reason.Coded? <==> report.state == -1 && p.failureCode.Some? && LooksNumeric(p.failureCode.value))
    && (report.reason.Coded? ==> ToInt(p.failureCode.value) == Some(report.reason.code))
    && (report.reason == Timeout <==> p.status == Expired && !report.reason.Coded?)
  }

  lemma ReasonReportedExactly(p: Payment)
    ensures PaymeReason(p).Some? <==> Reportable(p)
  {
  }

  // ---------------------------------------------------------------- activation

  /**
   A successful checkout makes its subscription the tenant's only live one. The new period ends
   after now, and after the period of a same-plan subscription it replaces; every other row stays.
   */
  lemma PaidSubscriptionIsTheLiveOne(s: State, id: Id, now: Moment)
    requires Inv(s) && id in s.payments && s.payments[id].target.ForSubscription?
    requires MarkSucceeded(s, id, now).Ok?
    ensures var t := MarkSucceeded(s, id, now).value;
            var sub, tenant := s.payments[id].target.subscription, s.payments[id].tenant;
            && sub in s.subscriptions && sub in t.subscriptions
            && (forall other :: LiveRow(t.subscriptions, tenant, other) <==> other == sub)
            && Instant(t.subscriptions[sub].periodEnd) >= Instant(now) + 28 * MICROS_PER_DAY
            && (forall prior :: LiveRow(s.subscriptions, tenant, prior) ==>
                  && prior in t.subscriptions && t.subscriptions[prior].status == Withdrawn
                  && (s.subscriptions[prior].plan == s.subscriptions[sub].plan ==>
                        Instant(t.subscriptions[sub].periodEnd) > Instant(s.subscriptions[prior].periodEnd)))
            && (forall other :: other in s.subscriptions && other != sub && !LiveRow(s.subscriptions, tenant, other) ==>
                  other in t.subscriptions && t.subscriptions[other] == s.subscriptions[other])
  {
    assert PaymentAgrees(s.subscriptions, s.payments[id]);
    ActivatedIsTheLiveOne(s.plans, s.subscriptions, s.payments[id].target.subscription, now);
  }

  lemma ActivatedIsTheLiveOne(plans: map<string, Plan>, subs: map<Id, Subscription>, sub: Id, now: Moment)
    requires OneLive(subs) && sub in subs && !IsLive(subs[sub].status)
    ensures var next, tenant := ActivatedTable(plans, subs, sub, now), subs[sub].tenant;
            && sub in next
            && (forall other :: LiveRow(next, tenant, other) <==> other == sub)
            && Instant(next[sub].periodEnd) >= Instant(now) + 28 * MICROS_PER_DAY
            && (forall prior :: LiveRow(subs, tenant, prior) ==>
                  && prior in next && next[prior].status == Withdrawn
                  && (subs[prior].plan == subs[sub].plan
                      ==> Instant(next[sub].periodEnd) > Instant(subs[prior].periodEnd)))
            && (forall other :: other in subs && other != sub && !LiveRow(subs, tenant, other) ==>
                  other in next && next[other] == subs[other])
  {
    ActivePeriod(plans, subs, sub, now);
    var next, tenant := ActivatedTable(plans, subs, sub, now), subs[sub].tenant;
    assert LiveRow(next, tenant, sub);
    forall other | LiveRow(next, tenant, other) ensures other == sub {
      if other != sub {
        assert LiveRow(subs, tenant, other);
      }
    }
    forall prior: Id | LiveRow(subs, tenant, prior) ensures ReplacedBy(subs, sub) == Some(prior) {
    }
  }

  lemma ActivePeriod(plans: map<string, Plan>, subs: map<Id, Subscription>, id: Id, now: Moment)
    requires id in subs
    ensures var end := ActiveRow(plans, subs, id, now).periodEnd;
            && Instant(end) >= Instant(now) + 28 * MICROS_PER_DAY
            && var prior := ReplacedBy(subs, id);
               prior.Some? && subs[prior.value].plan == subs[id].plan ==>
                 Instant(end) > Instant(subs[prior.value].periodEnd)
  {
    var start := match ReplacedBy(subs, id)
                 case None => now
                 case Some(prior) => ActivationStart(subs[prior], subs[id].plan, now);
    PeriodEndIsLater(start, PlanPeriod(plans, subs[id].plan));
  }

  /**
   The period-end step leaves no lapsed period behind: the row rolls forward or closes, and a
   tenant whose fallback is a free plan on offer always ends up with a live, unexpired plan.
   */
  lemma PeriodEndLeavesAPlan(s: State, tenant: Id, id: Id, fallback: Option<string>, newId: Id, now: Moment)
    requires Inv(s) && PeriodDue(s, tenant, id, now) && CloseEndedPeriod(s, tenant, id, fallback, newId, now).Ok?
    ensures var (t, acted) := CloseEndedPeriod(s, tenant, id, fallback, newId, now).value;
            && acted && !PeriodDue(t, tenant, id, now)
            && (RollsForward(s.plans, s.subscriptions[id])
                || (fallback.Some? && PlanOffered(s, fallback.value) && s.plans[fallback.value].price == 0)
                ==> exists live ::
                      LiveRow(t.subscriptions, tenant, live) && !Ended(t.subscriptions[live].periodEnd, now))
  {
    var (t, acted) := CloseEndedPeriod(s, tenant, id, fallback, newId, now).value;
    var sub := s.subscriptions[id];
    if RollsForward(s.plans, sub) {
      RollForwardContainsNow(sub.periodStart, sub.periodEnd, now, PlanPeriod(s.plans, sub.plan));
      assert LiveRow(t.subscriptions, tenant, id);
    } else {
      EndedFreesTheSlot(s.subscriptions, tenant, id, now);
      if fallback.Some? && PlanOffered(s, fallback.value) && s.plans[fallback.value].price == 0 {
        PeriodEndIsLater(now, s.plans[fallback.value].period);
        assert LiveRow(t.subscriptions, tenant, newId);
      }
    }
  }

  lemma EndedFreesTheSlot(subs: map<Id, Subscription>, tenant: Id, id: Id, now: Moment)
    requires OneLive(subs) && LiveRow(subs, tenant, id)
    ensures LiveOf(subs[id := EndedRow(subs[id], now)], tenant).None?
  {
    var next := subs[id := EndedRow(subs[id], now)];
    assert forall other :: LiveRow(next, tenant, other) ==> LiveRow(subs, tenant, other);
  }

  // ---------------------------------------------------------------- opening a checkout again

  /** While a checkout is open, starting again is answered from it, or refused for another plan or provider. */
  lemma StartWhileAwaiting(s: State, tenant: Id, sub: Id, plan: string, provider: Provider, newSubscription: Id,
                           newPayment: Id, checkout: Option<string>, now: Moment)
    returns (payment: Id)
    requires Inv(s) && AwaitingRow(s.subscriptions, tenant, sub)
    requires PlanOffered(s, plan) && s.plans[plan].price > 0 && provider in s.providers
    ensures payment in s.payments && s.payments[payment].target == ForSubscription(sub)
            && IsOpen(s.payments[payment].status)
    ensures var p := s.payments[payment];
            StartSubscription(s, tenant, plan, provider, newSubscription, newPayment, checkout, now)
            == if plan == s.subscriptions[sub].plan && provider == p.provider
               then Ok((s, Checkout(payment, provider, p.checkoutUrl)))
               else Err(Conflict)
  {
    assert HasCheckout(s.payments, sub);
    payment :| payment in s.payments && s.payments[payment].target == ForSubscription(sub);
    assert PaymentAgrees(s.subscriptions, s.payments[payment]) && StampsAgree(s.payments[payment]);
    assert KeyRow(s.payments, tenant, SubscriptionKey(sub), payment);
    assert AwaitingRow(s.subscriptions, tenant, AwaitingOf(s.subscriptions, tenant).value);
  }

  /** A repeated start gets the same payment for as long as the checkout it opened is open. */
  lemma RepeatedStart(s: State, tenant: Id, plan: string, provider: Provider, newSubscription: Id, newPayment: Id,
                      checkout: Option<string>, now: Moment, steps: seq<Step>,
                      otherSubscription: Id, otherPayment: Id, otherCheckout: Option<string>, later: Moment)
    requires Inv(s)
    requires StartSubscription(s, tenant, plan, provider, newSubscription, newPayment, checkout, now).Ok?
    ensures var (t, answer) :=
            StartSubscription(s, tenant, plan, provider, newSubscription, newPayment, checkout, now).value;
            var u := Run(t, steps);
            && answer.payment in u.payments
            && (IsOpen(u.payments[answer.payment].status)
                && PlanOffered(u, plan) && u.plans[plan].price > 0 && provider in u.providers
                ==> StartSubscription(u, tenant, plan, provider, otherSubscription, otherPayment, otherCheckout, later)
                    == Ok((u, answer)))
  {
    var (t, answer) := StartSubscription(s, tenant, plan, provider, newSubscription, newPayment, checkout, now).value;
    StartSubscriptionKeeps(s, tenant, plan, provider, newSubscription, newPayment, checkout, now);
    StartedPayment(s, tenant, plan, provider, newSubscription, newPayment, checkout, now);
    RunKeeps(t, steps);
    var u := Run(t, steps);
    var p := u.payments[answer.payment];
    assert Advances(t.payments[answer.payment], p) && PaymentAgrees(u.subscriptions, p);
    if IsOpen(p.status) && PlanOffered(u, plan) && u.plans[plan].price > 0 && provider in u.providers {
      var payment := StartWhileAwaiting(u, tenant, p.target.subscription, plan, provider, otherSubscription,
                                        otherPayment, otherCheckout, later);
      OneCheckout(u.subscriptions, u.payments, payment, answer.payment);
    }
  }

  predicate AnswersWith(t: State, answer: Checkout, tenant: Id, target: Target, provider: Provider) {
    && answer.payment in t.payments
    && var p := t.payments[answer.payment];
       p.target == target && p.tenant == tenant && p.provider == provider
       && answer == Checkout(answer.payment, provider, p.checkoutUrl)
  }

  lemma CreatedPayment(s: State, tenant: Id, money: Money, target: Target, provider: Provider, key: IdempotencyKey,
                       newId: Id, checkout: Option<string>)
    requires CreatePayment(s, tenant, money, target, provider, key, newId, checkout).Ok?
    ensures var (t, answer) := CreatePayment(s, tenant, money, target, provider, key, newId, checkout).value;
            t.subscriptions == s.subscriptions && AnswersWith(t, answer, tenant, target, provider)
  {
  }

  lemma StartedPayment(s: State, tenant: Id, plan: string, provider: Provider, newSubscription: Id, newPayment: Id,
                       checkout: Option<string>, now: Moment)
    requires StartSubscription(s, tenant, plan, provider, newSubscription, newPayment, checkout, now).Ok?
    ensures var (t, answer) :=
            StartSubscription(s, tenant, plan, provider, newSubscription, newPayment, checkout, now).value;
            exists sub :: && sub in t.subscriptions && t.subscriptions[sub].plan == plan
                          && AnswersWith(t, answer, tenant, ForSubscription(sub), provider)
  {
    var (t, answer) := StartSubscription(s, tenant, plan, provider, newSubscription, newPayment, checkout, now).value;
    match AwaitingOf(s.subscriptions, tenant)
    case Some(id) =>
      var sub := s.subscriptions[id];
      CreatedPayment(s, tenant, Money(sub.price, sub.currency), ForSubscription(id), provider, SubscriptionKey(id),
                     newPayment, checkout);
      assert AnswersWith(t, answer, tenant, ForSubscription(id), provider);
    case None =>
      var row := NewSubscription(s.plans[plan], tenant, plan, Awaiting, now);
      CreatedPayment(s.(subscriptions := s.subscriptions[newSubscription := row]), tenant,
                     Money(row.price, row.currency), ForSubscription(newSubscription), provider,
                     SubscriptionKey(newSubscription), newPayment, checkout);
      assert AnswersWith(t, answer, tenant, ForSubscription(newSubscription), provider);
  }

  // ---------------------------------------------------------------- tenant isolation

  /** Only `id` and rows of `tenant` differ between two versions of the tables. */
  ghost predicate OnlyTenant(s: State, t: State, id: Id, tenant: Id) {
    && t.payments.Keys == s.payments.Keys && t.subscriptions.Keys == s.subscriptions.Keys
    && (forall other :: other in s.payments && other != id ==> t.payments[other] == s.payments[other])
    && (forall sub :: sub in s.subscriptions && s.subscriptions[sub].tenant != tenant
                      ==> t.subscriptions[sub] == s.subscriptions[sub])
  }

  lemma ActivationStays(plans: map<string, Plan>, subs: map<Id, Subscription>, id: Id, now: Moment)
    requires id in subs
    ensures var next := ActivatedTable(plans, subs, id, now);
            && next.Keys == subs.Keys
            && forall sub :: sub in subs && subs[sub].tenant != subs[id].tenant ==> next[sub] == subs[sub]
  {
  }

  lemma ApplyActionStays(s: State, id: Id, c: Callback, now: Moment)
    requires id in s.payments && ApplyAction(s, id, c, now).Ok?
    ensures OnlyTenant(s, ApplyAction(s, id, c, now).value, id, s.payments[id].tenant)
  {
    var p := s.payments[id];
    if c.action == Confirm && p.target.ForSubscription? {
      ActivationStays(s.plans, s.subscriptions, p.target.subscription, now);
    }
  }

  ghost predicate SameTables(s: State, t: State) {
    t.payments == s.payments && t.subscriptions == s.subscriptions && t.events == s.events
  }

  lemma DispatchStaysInTenant(s: State, r: Request, c: Callback, digest: string, now: Moment)
    ensures var t := StateAfter(s, Dispatch(s, r, c, digest, now));
            || SameTables(s, t)
            || (&& c.authentic && FindPayment(s, c).Some?
                && OnlyTenant(s, t, FindPayment(s, c).value, s.payments[FindPayment(s, c).value].tenant))
  {
    var id := FindPayment(s, c);
    if id.Some? && ApplyAction(s, id.value, c, now).Ok? {
      ApplyActionStays(s, id.value, c, now);
    }
  }

  /** A callback changes at most the payment it names and subscriptions of that payment's tenant. */
  lemma CallbackStaysInTenant(s: State, r: Request, digest: string, now: Moment)
    ensures var t := StateAfter(s, Deliver(s, r, digest, now));
            || SameTables(s, t)
            || (&& Parse(r).Recognised? && Authentic(r) && FindPayment(s, Parse(r).callback).Some?
                && var id := FindPayment(s, Parse(r).callback).value;
                   s.payments[id].provider == RequestProvider(r) && OnlyTenant(s, t, id, s.payments[id].tenant))
  {
    ParsedIsWellFormedIf(r);
    if Parse(r).Recognised? {
      DispatchStaysInTenant(s, r, Parse(r).callback, digest, now);
    }
  }

  lemma ParsedIsWellFormedIf(r: Request)
    ensures Parse(r).Recognised?
            ==> Parse(r).callback.provider == RequestProvider(r) && Parse(r).callback.authentic == Authentic(r)
  {
    if Parse(r).Recognised? {
      ParsedIsWellFormed(r);
    }
  }
}
