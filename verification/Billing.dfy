/**
 Payments and subscriptions as tables, and every billing operation as one database transaction:
 a function from the committed tables to the next ones, or an error that leaves them alone.

 Ids are unique row ids. A new id that is already taken is an `IntegrityFailure`, like any
 other unique-index violation.
 */
module Billing {
  import opened Base
  import opened Calendar

  type Id = nat

  datatype Provider = Payme | Click | Stripe

  datatype Money = Money(amount: int, currency: string)

  datatype PaymentStatus = Created | Pending | Succeeded | Failed | Canceled | Expired

  datatype SubscriptionStatus = Awaiting | Trialing | Active | PastDue | Withdrawn | Lapsed

  /** What a payment is for: a subscription checkout of billing, or a caller's purpose and reference. */
  datatype Target =
    | ForSubscription(subscription: Id)
    | ForCaller(purpose: string, reference: string)

  datatype IdempotencyKey = SubscriptionKey(subscription: Id) | CallerKey(text: string)

  datatype Payment = Payment(
    tenant: Id,
    target: Target,
    money: Money,
    provider: Provider,
    key: IdempotencyKey,
    checkoutUrl: string,
    status: PaymentStatus,
    txnId: Option<string>,
    failureCode: Option<string>,
    pendingAt: Option<Moment>,
    paidAt: Option<Moment>,
    closedAt: Option<Moment>)

  datatype Plan = Plan(price: nat, currency: string, period: Period, trialDays: nat, isActive: bool)

  datatype Subscription = Subscription(
    tenant: Id,
    plan: string,
    status: SubscriptionStatus,
    price: nat,
    currency: string,
    periodStart: Moment,
    periodEnd: Moment,
    cancelAtPeriodEnd: bool,
    canceledAt: Option<Moment>)

  datatype Event =
    | PaymentCreated(payment: Id, target: Target)
    | PaymentSucceeded(payment: Id, target: Target, late: bool)
    | PaymentClosed(payment: Id, target: Target, status: PaymentStatus)
    | SubscriptionReplaced(subscription: Id, successor: Id)
    | SubscriptionActivated(subscription: Id, plan: string, end: Moment)
    | SubscriptionCanceled(subscription: Id, plan: string)
    | SubscriptionEnded(subscription: Id, plan: string, verdict: SubscriptionStatus)

  datatype Action = Check | Create | Confirm | Cancel | Status

  /** Ledger keys: the (transaction, action) of an authenticated callback, or a rejected body's digest. */
  datatype LedgerKey =
    | Claimed(provider: Provider, txn: string, action: Action)
    | Rejected(provider: Provider, digest: string)

  datatype LedgerStatus = Received | Processed | RejectedNotFound | RejectedAmount | FailedState | BadSignature

  datatype LedgerRow = LedgerRow(status: LedgerStatus, payment: Option<Id>)

  /** The catalogue (plans by their unique code, enabled providers) and the committed tables. */
  datatype State = State(
    plans: map<string, Plan>,
    providers: set<Provider>,
    subscriptions: map<Id, Subscription>,
    payments: map<Id, Payment>,
    ledger: map<LedgerKey, LedgerRow>,
    events: seq<Event>)

  datatype Checkout = Checkout(payment: Id, provider: Provider, url: string)

  // ---------------------------------------------------------------- state machine

  predicate CanTransition(current: PaymentStatus, target: PaymentStatus) {
    match current
    case Created => target != Created
    case Pending => target != Created && target != Pending
    case Expired => target == Succeeded
    case _ => false
  }

  predicate IsOpen(status: PaymentStatus) {
    status == Created || status == Pending
  }

  predicate IsLive(status: SubscriptionStatus) {
    status == Trialing || status == Active || status == PastDue
  }

  // ---------------------------------------------------------------- queries

  predicate LiveRow(subs: map<Id, Subscription>, tenant: Id, id: Id) {
    id in subs && subs[id].tenant == tenant && IsLive(subs[id].status)
  }

  predicate AwaitingRow(subs: map<Id, Subscription>, tenant: Id, id: Id) {
    id in subs && subs[id].tenant == tenant && subs[id].status == Awaiting
  }

  predicate KeyRow(payments: map<Id, Payment>, tenant: Id, key: IdempotencyKey, id: Id) {
    id in payments && payments[id].tenant == tenant && payments[id].key == key
  }

  predicate TxnRow(payments: map<Id, Payment>, provider: Provider, txn: string, id: Id) {
    id in payments && payments[id].provider == provider && payments[id].txnId == Some(txn)
  }

  ghost function LiveOf(subs: map<Id, Subscription>, tenant: Id): (r: Option<Id>)
    ensures r.Some? ==> LiveRow(subs, tenant, r.value)
    ensures r.None? ==> forall id :: !LiveRow(subs, tenant, id)
  {
    if exists id :: LiveRow(subs, tenant, id) then
      var id :| LiveRow(subs, tenant, id);
      Some(id)
    else None
  }

  ghost function AwaitingOf(subs: map<Id, Subscription>, tenant: Id): (r: Option<Id>)
    ensures r.Some? ==> AwaitingRow(subs, tenant, r.value)
    ensures r.None? ==> forall id :: !AwaitingRow(subs, tenant, id)
  {
    if exists id :: AwaitingRow(subs, tenant, id) then
      var id :| AwaitingRow(subs, tenant, id);
      Some(id)
    else None
  }

  ghost function ByKey(payments: map<Id, Payment>, tenant: Id, key: IdempotencyKey): (r: Option<Id>)
    ensures r.Some? ==> KeyRow(payments, tenant, key, r.value)
    ensures r.None? ==> forall id :: !KeyRow(payments, tenant, key, id)
  {
    if exists id :: KeyRow(payments, tenant, key, id) then
      var id :| KeyRow(payments, tenant, key, id);
      Some(id)
    else None
  }

  ghost function ByTxn(payments: map<Id, Payment>, provider: Provider, txn: string): (r: Option<Id>)
    ensures r.Some? ==> TxnRow(payments, provider, txn, r.value)
    ensures r.None? ==> forall id :: !TxnRow(payments, provider, txn, id)
  {
    if exists id :: TxnRow(payments, provider, txn, id) then
      var id :| TxnRow(payments, provider, txn, id);
      Some(id)
    else None
  }

  // ---------------------------------------------------------------- payment intake

  /** A repeated request is answered from the stored payment, if it asks for the same thing. */
  function ReplayCheckout(s: State, id: Id, money: Money, target: Target, provider: Provider): Outcome<Checkout>
    requires id in s.payments
  {
    var p := s.payments[id];
    if p.money == money && p.target == target && p.provider == provider
    then Ok(Checkout(id, p.provider, p.checkoutUrl))
    else Err(Conflict)
  }

  /** `checkout` is what the provider's create_checkout answers: a URL, or None when it raises. */
  ghost function CreatePayment(s: State, tenant: Id, money: Money, target: Target, provider: Provider,
                               key: IdempotencyKey, newId: Id, checkout: Option<string>)
    : Outcome<(State, Checkout)>
  {
    if provider !in s.providers then Err(NotFound)
    else if money.amount <= 0 then Err(InvariantViolation)
    else
      match ByKey(s.payments, tenant, key)
      case Some(id) =>
        (match ReplayCheckout(s, id, money, target, provider)
         case Ok(c) => Ok((s, c))
         case Err(e) => Err(e))
      case None =>
        if newId in s.payments then Err(IntegrityFailure)
        else if checkout.None? then Err(ProviderFailure)
        else
          var p := Payment(tenant, target, money, provider, key, checkout.value,
                           Created, None, None, None, None, None);
          Ok((s.(payments := s.payments[newId := p], events := s.events + [PaymentCreated(newId, target)]),
              Checkout(newId, provider, checkout.value)))
  }

  // ---------------------------------------------------------------- payment transitions

  function OpenedRow(p: Payment, txn: string, now: Moment): Payment {
    p.(txnId := Some(txn), status := Pending, pendingAt := Some(now))
  }

  ghost function MarkPending(s: State, id: Id, txn: string, now: Moment): Outcome<State>
    requires id in s.payments
  {
    var p := s.payments[id];
    if !CanTransition(p.status, Pending) then Err(InvariantViolation)
    else if exists other :: other != id && TxnRow(s.payments, p.provider, txn, other) then Err(IntegrityFailure)
    else Ok(s.(payments := s.payments[id := OpenedRow(p, txn, now)]))
  }

  /** The tenant's own subscription that a checkout payment opened. */
  predicate OwnsSubscription(subs: map<Id, Subscription>, p: Payment) {
    && p.target.ForSubscription?
    && p.target.subscription in subs
    && subs[p.target.subscription].tenant == p.tenant
  }

  /** A renewal of the same plan continues where the replaced period ends. */
  function ActivationStart(prior: Subscription, plan: string, now: Moment): Moment {
    if prior.plan == plan && !Ended(prior.periodEnd, now) then prior.periodEnd else now
  }

  function PlanPeriod(plans: map<string, Plan>, plan: string): Period {
    if plan in plans then plans[plan].period else Month
  }

  function Activated(plans: map<string, Plan>, sub: Subscription, start: Moment): Subscription {
    sub.(status := Active, cancelAtPeriodEnd := false,
         periodStart := start, periodEnd := PeriodEnd(start, PlanPeriod(plans, sub.plan)))
  }

  function Superseded(prior: Subscription, now: Moment): Subscription {
    prior.(status := Withdrawn, canceledAt := Some(now))
  }

  /** The live subscription that activating `id` replaces. */
  ghost function ReplacedBy(subs: map<Id, Subscription>, id: Id): (r: Option<Id>)
    requires id in subs
    ensures r.Some? ==> r.value != id && LiveRow(subs, subs[id].tenant, r.value)
  {
    match LiveOf(subs, subs[id].tenant)
    case Some(prior) => if prior == id then None else Some(prior)
    case None => None
  }

  /** The row of `id` once it is the live one. */
  ghost function ActiveRow(plans: map<string, Plan>, subs: map<Id, Subscription>, id: Id, now: Moment): Subscription
    requires id in subs
  {
    match ReplacedBy(subs, id)
    case None => Activated(plans, subs[id], now)
    case Some(prior) => Activated(plans, subs[id], ActivationStart(subs[prior], subs[id].plan, now))
  }

  ghost function ActivatedTable(plans: map<string, Plan>, subs: map<Id, Subscription>, id: Id, now: Moment)
    : map<Id, Subscription>
    requires id in subs
  {
    match ReplacedBy(subs, id)
    case None => subs[id := ActiveRow(plans, subs, id, now)]
    case Some(prior) => subs[prior := Superseded(subs[prior], now)][id := ActiveRow(plans, subs, id, now)]
  }

  ghost function ActivationEvents(plans: map<string, Plan>, subs: map<Id, Subscription>, id: Id,
                                  now: Moment): seq<Event>
    requires id in subs
  {
    var done := SubscriptionActivated(id, subs[id].plan, ActiveRow(plans, subs, id, now).periodEnd);
    match ReplacedBy(subs, id)
    case None => [done]
    case Some(prior) => [SubscriptionReplaced(prior, id), done]
  }

  function PaidRow(p: Payment, now: Moment): Payment {
    p.(status := Succeeded, paidAt := Some(now))
  }

  /** Success, with the activation it pays for in the same transaction. */
  ghost function MarkSucceeded(s: State, id: Id, now: Moment): Outcome<State>
    requires id in s.payments
  {
    var p := s.payments[id];
    var done := PaymentSucceeded(id, p.target, p.status == Expired);
    if !CanTransition(p.status, Succeeded) then Err(InvariantViolation)
    else if p.target.ForCaller? then
      Ok(s.(payments := s.payments[id := PaidRow(p, now)], events := s.events + [done]))
    else if !OwnsSubscription(s.subscriptions, p) then Err(NotFound)
    else
      var sub := p.target.subscription;
      Ok(s.(payments := s.payments[id := PaidRow(p, now)],
            subscriptions := ActivatedTable(s.plans, s.subscriptions, sub, now),
            events := s.events + ActivationEvents(s.plans, s.subscriptions, sub, now) + [done]))
  }

  function DroppedRow(sub: Subscription, target: PaymentStatus, now: Moment): Subscription {
    if target == Expired then sub.(status := Lapsed) else sub.(status := Withdrawn, canceledAt := Some(now))
  }

  function DroppedTable(subs: map<Id, Subscription>, p: Payment, target: PaymentStatus, now: Moment)
    : map<Id, Subscription>
  {
    if OwnsSubscription(subs, p) && subs[p.target.subscription].status == Awaiting
    then subs[p.target.subscription := DroppedRow(subs[p.target.subscription], target, now)]
    else subs
  }

  function ClosedRow(p: Payment, target: PaymentStatus, reason: Option<string>, now: Moment): Payment {
    p.(status := target, closedAt := Some(now), failureCode := if reason.Some? then reason else p.failureCode)
  }

  /** A terminal transition without success; a checkout that closes drops its awaiting subscription. */
  function ClosePayment(s: State, id: Id, target: PaymentStatus, reason: Option<string>, now: Moment)
    : Outcome<State>
    requires id in s.payments
  {
    var p := s.payments[id];
    if !CanTransition(p.status, target) then Err(InvariantViolation)
    else Ok(s.(payments := s.payments[id := ClosedRow(p, target, reason, now)],
               subscriptions := DroppedTable(s.subscriptions, p, target, now),
               events := s.events + [PaymentClosed(id, p.target, target)]))
  }

  function CancelPayment(s: State, tenant: Id, id: Id, now: Moment): Outcome<State> {
    if id in s.payments && s.payments[id].tenant == tenant then ClosePayment(s, id, Canceled, None, now)
    else Err(NotFound)
  }

  /** The re-check of the expiry sweep under the row lock. */
  function ExpireCheckout(s: State, id: Id, now: Moment): Outcome<State> {
    if id in s.payments && IsOpen(s.payments[id].status) then ClosePayment(s, id, Expired, None, now)
    else Ok(s)
  }

  // ---------------------------------------------------------------- subscriptions

  predicate PlanOffered(s: State, plan: string) {
    plan in s.plans && s.plans[plan].isActive
  }

  function NewSubscription(p: Plan, tenant: Id, plan: string, status: SubscriptionStatus, now: Moment): Subscription {
    Subscription(tenant, plan, status, p.price, p.currency, now, PeriodEnd(now, p.period), false, None)
  }

  ghost function CheckoutFor(s: State, id: Id, provider: Provider, newId: Id, checkout: Option<string>)
    : Outcome<(State, Checkout)>
    requires id in s.subscriptions
  {
    var sub := s.subscriptions[id];
    CreatePayment(s, sub.tenant, Money(sub.price, sub.currency), ForSubscription(id), provider,
                  SubscriptionKey(id), newId, checkout)
  }

  ghost function StartSubscription(s: State, tenant: Id, plan: string, provider: Provider,
                                   newSubscription: Id, newPayment: Id, checkout: Option<string>, now: Moment)
    : Outcome<(State, Checkout)>
  {
    if !PlanOffered(s, plan) then Err(NotFound)
    else if s.plans[plan].price == 0 then Err(InvariantViolation)
    else
      match AwaitingOf(s.subscriptions, tenant)
      case Some(id) =>
        if s.subscriptions[id].plan != plan then Err(Conflict)
        else CheckoutFor(s, id, provider, newPayment, checkout)
      case None =>
        if newSubscription in s.subscriptions then Err(IntegrityFailure)
        else
          var row := NewSubscription(s.plans[plan], tenant, plan, Awaiting, now);
          CheckoutFor(s.(subscriptions := s.subscriptions[newSubscription := row]), newSubscription, provider,
                      newPayment, checkout)
  }

  ghost function CancelSubscription(s: State, tenant: Id, now: Moment): Outcome<State> {
    match LiveOf(s.subscriptions, tenant)
    case None => Err(NotFound)
    case Some(id) =>
      var sub := s.subscriptions[id];
      Ok(s.(subscriptions := s.subscriptions[id := sub.(cancelAtPeriodEnd := true, canceledAt := Some(now))],
            events := s.events + [SubscriptionCanceled(id, sub.plan)]))
  }

  ghost function AutoSubscribe(s: State, tenant: Id, plan: string, newId: Id, now: Moment): Outcome<State> {
    if !PlanOffered(s, plan) then Err(NotFound)
    else if s.plans[plan].price != 0 then Err(InvariantViolation)
    else if LiveOf(s.subscriptions, tenant).Some? then Ok(s)
    else if newId in s.subscriptions then Err(IntegrityFailure)
    else
      var p := s.plans[plan];
      var sub := NewSubscription(p, tenant, plan, if p.trialDays > 0 then Trialing else Active, now);
      Ok(s.(subscriptions := s.subscriptions[newId := sub],
            events := s.events + [SubscriptionActivated(newId, plan, sub.periodEnd)]))
  }

  /** Whether the period-end step still applies under the row lock. */
  predicate PeriodDue(s: State, tenant: Id, id: Id, now: Moment) {
    LiveRow(s.subscriptions, tenant, id) && Ended(s.subscriptions[id].periodEnd, now)
  }

  /** A zero-price plan never lapses unless its cancellation was requested. */
  predicate RollsForward(plans: map<string, Plan>, sub: Subscription) {
    sub.plan in plans && plans[sub.plan].price == 0 && !sub.cancelAtPeriodEnd
  }

  function RolledRow(plans: map<string, Plan>, sub: Subscription, now: Moment): Subscription {
    var (start, end) := RollForward(sub.periodStart, sub.periodEnd, now, PlanPeriod(plans, sub.plan));
    sub.(periodStart := start, periodEnd := end, status := Active)
  }

  function EndedRow(sub: Subscription, now: Moment): Subscription {
    sub.(status := if sub.cancelAtPeriodEnd then Withdrawn else Lapsed,
         canceledAt := if sub.canceledAt.None? && sub.cancelAtPeriodEnd then Some(now) else sub.canceledAt)
  }

  /** The paid period is over: the row closes, before any fallback. */
  function EndPeriod(s: State, id: Id, now: Moment): State
    requires id in s.subscriptions
  {
    var row := EndedRow(s.subscriptions[id], now);
    s.(subscriptions := s.subscriptions[id := row],
       events := s.events + [SubscriptionEnded(id, row.plan, row.status)])
  }

  /** Period-end step for one subscription, re-checked under its row lock; true if it acted. */
  ghost function CloseEndedPeriod(s: State, tenant: Id, id: Id, fallback: Option<string>, newId: Id, now: Moment)
    : Outcome<(State, bool)>
  {
    if !PeriodDue(s, tenant, id, now) then Ok((s, false))
    else if RollsForward(s.plans, s.subscriptions[id]) then
      Ok((s.(subscriptions := s.subscriptions[id := RolledRow(s.plans, s.subscriptions[id], now)]), true))
    else if fallback.None? then Ok((EndPeriod(s, id, now), true))
    else
      match AutoSubscribe(EndPeriod(s, id, now), tenant, fallback.value, newId, now)
      case Ok(next) => Ok((next, true))
      case Err(IntegrityFailure) => Err(IntegrityFailure)
      case Err(_) => Ok((EndPeriod(s, id, now), true))
  }
}
