/**
 What every committed billing state keeps: one live and one awaiting subscription per tenant,
 payments and subscriptions that agree, an event history that matches each payment's status, and
 a ledger that matches the payments. One lemma per operation shows that it is kept.
 */
module BillingInvariant {
  import opened Base
  import opened Calendar
  import opened Billing
  import opened Webhooks

  type Payments = map<Id, Payment>
  type Subscriptions = map<Id, Subscription>

  // ---------------------------------------------------------------- unique indexes

  ghost predicate OneLive(subs: Subscriptions) {
    forall tenant, a, b :: LiveRow(subs, tenant, a) && LiveRow(subs, tenant, b) ==> a == b
  }

  ghost predicate OneAwaiting(subs: Subscriptions) {
    forall tenant, a, b :: AwaitingRow(subs, tenant, a) && AwaitingRow(subs, tenant, b) ==> a == b
  }

  ghost predicate UniqueKeys(payments: Payments) {
    forall tenant, key, a, b :: KeyRow(payments, tenant, key, a) && KeyRow(payments, tenant, key, b) ==> a == b
  }

  ghost predicate UniqueTxns(payments: Payments) {
    forall provider, txn, a, b :: TxnRow(payments, provider, txn, a) && TxnRow(payments, provider, txn, b) ==> a == b
  }

  // ---------------------------------------------------------------- payments and subscriptions

  /** How a checkout payment's status fixes its subscription's. */
  predicate StatusAgrees(payment: PaymentStatus, subscription: SubscriptionStatus) {
    match payment
    case Created => subscription == Awaiting
    case Pending => subscription == Awaiting
    case Expired => subscription == Lapsed
    case Failed => subscription == Withdrawn
    case Canceled => subscription == Withdrawn
    case Succeeded => subscription != Awaiting
  }

  predicate PaymentAgrees(subs: Subscriptions, p: Payment) {
    match p.target
    case ForCaller(_, _) => p.key.CallerKey?
    case ForSubscription(id) =>
      && OwnsSubscription(subs, p)
      && p.key == SubscriptionKey(id)
      && p.money == Money(subs[id].price, subs[id].currency)
      && StatusAgrees(p.status, subs[id].status)
  }

  /** Times and the transaction id are recorded by the transition that needs them. */
  predicate StampsAgree(p: Payment) {
    && p.money.amount > 0
    && (p.txnId.Some? <==> p.pendingAt.Some?)
    && (p.status == Created ==> p.txnId.None?)
    && (p.status == Pending ==> p.txnId.Some?)
    && (p.paidAt.Some? <==> p.status == Succeeded)
    && (IsOpen(p.status) ==> p.closedAt.None?)
    && (p.status == Failed || p.status == Canceled || p.status == Expired ==> p.closedAt.Some?)
  }

  ghost predicate HasCheckout(payments: Payments, id: Id) {
    exists payment :: payment in payments && payments[payment].target == ForSubscription(id)
  }

  ghost predicate AllAgree(subs: Subscriptions, payments: Payments) {
    forall id :: id in payments ==> PaymentAgrees(subs, payments[id])
  }

  ghost predicate AllStamped(payments: Payments) {
    forall id :: id in payments ==> StampsAgree(payments[id])
  }

  ghost predicate AwaitingPaid(subs: Subscriptions, payments: Payments) {
    forall id :: id in subs && subs[id].status == Awaiting ==> HasCheckout(payments, id)
  }

  // ---------------------------------------------------------------- event history

  predicate About(e: Event, id: Id) {
    (e.PaymentCreated? || e.PaymentSucceeded? || e.PaymentClosed?) && e.payment == id
  }

  function PaymentLog(events: seq<Event>, id: Id): seq<Event> {
    if events == [] then []
    else
      var last := events[|events| - 1];
      PaymentLog(events[..|events| - 1], id) + if About(last, id) then [last] else []
  }

  /** The only event histories a payment can have, read off its row. */
  function ExpectedLog(id: Id, p: Payment): seq<Event> {
    [PaymentCreated(id, p.target)]
    + match p.status
      case Created => []
      case Pending => []
      case Succeeded =>
        if p.closedAt.Some? then [PaymentClosed(id, p.target, Expired), PaymentSucceeded(id, p.target, true)]
        else [PaymentSucceeded(id, p.target, false)]
      case other => [PaymentClosed(id, p.target, other)]
  }

  function LogOf(payments: Payments, id: Id): seq<Event> {
    if id in payments then ExpectedLog(id, payments[id]) else []
  }

  ghost predicate Logged(events: seq<Event>, payments: Payments) {
    forall id: Id :: PaymentLog(events, id) == LogOf(payments, id)
  }

  lemma PaymentLogAppend(events: seq<Event>, e: Event, id: Id)
    ensures PaymentLog(events + [e], id) == PaymentLog(events, id) + if About(e, id) then [e] else []
  {
    assert (events + [e])[..|events|] == events;
  }

  /** An event that names no payment leaves every history alone. */
  lemma OtherEventLogged(events: seq<Event>, e: Event, payments: Payments)
    requires Logged(events, payments)
    requires forall id: Id :: !About(e, id)
    ensures Logged(events + [e], payments)
  {
    forall id: Id ensures PaymentLog(events + [e], id) == LogOf(payments, id) {
      PaymentLogAppend(events, e, id);
    }
  }

  /** A transition that emits one event about its payment extends that payment's history. */
  lemma TransitionLogged(events: seq<Event>, e: Event, payments: Payments, id: Id, q: Payment)
    requires Logged(events, payments) && About(e, id)
    requires ExpectedLog(id, q) == LogOf(payments, id) + [e]
    ensures Logged(events + [e], payments[id := q])
  {
    forall other: Id ensures PaymentLog(events + [e], other) == LogOf(payments[id := q], other) {
      PaymentLogAppend(events, e, other);
    }
  }

  // ---------------------------------------------------------------- ledger

  /** What a committed ledger row says about the payment it names, for good. */
  predicate RowAgrees(payments: Payments, key: LedgerKey, row: LedgerRow) {
    match key
    case Rejected(_, _) => row == LedgerRow(BadSignature, None)
    case Claimed(provider, txn, action) =>
      && !ReadOnly(action)
      && row.status != BadSignature && row.status != Received
      && (row.status == RejectedNotFound <==> row.payment.None?)
      && (row.payment.Some? ==> row.payment.value in payments)
      && (row.status == Processed ==> ProcessedAgrees(payments[row.payment.value], action))
  }

  predicate ProcessedAgrees(p: Payment, action: Action) {
    && (action == Create ==> p.txnId.Some? && p.status != Created)
    && (action == Confirm ==> p.status == Succeeded)
    && (action == Cancel ==> p.status == Canceled)
  }

  ghost predicate Ledgered(ledger: map<LedgerKey, LedgerRow>, payments: Payments) {
    forall key :: key in ledger ==> RowAgrees(payments, key, ledger[key])
  }

  ghost predicate Inv(s: State) {
    && OneLive(s.subscriptions) && OneAwaiting(s.subscriptions)
    && UniqueKeys(s.payments) && UniqueTxns(s.payments)
    && AllAgree(s.subscriptions, s.payments) && AllStamped(s.payments)
    && AwaitingPaid(s.subscriptions, s.payments)
    && Logged(s.events, s.payments)
    && Ledgered(s.ledger, s.payments)
  }

  // ---------------------------------------------------------------- how rows may change

  /** The identity of a payment never changes, what is recorded stays, and a verdict is final. */
  predicate Advances(p: Payment, q: Payment) {
    && q.tenant == p.tenant && q.target == p.target && q.money == p.money
    && q.provider == p.provider && q.key == p.key && q.checkoutUrl == p.checkoutUrl
    && (p.txnId.Some? ==> q.txnId == p.txnId && q.pendingAt == p.pendingAt)
    && (p.status != Created ==> q.status != Created)
    && (p.status == Succeeded || p.status == Failed || p.status == Canceled ==> q == p)
    && (!IsOpen(p.status) ==> !IsOpen(q.status))
    && (p.closedAt.Some? ==> q.closedAt == p.closedAt)
  }

  ghost predicate TableAdvances(payments: Payments, next: Payments) {
    forall id :: id in payments ==> id in next && Advances(payments[id], next[id])
  }

  lemma UpdateAdvances(payments: Payments, id: Id, q: Payment)
    requires id in payments ==> Advances(payments[id], q)
    ensures TableAdvances(payments, payments[id := q])
  {
  }

  lemma LedgeredAdvances(ledger: map<LedgerKey, LedgerRow>, payments: Payments, next: Payments)
    requires Ledgered(ledger, payments) && TableAdvances(payments, next)
    ensures Ledgered(ledger, next)
  {
    forall key | key in ledger ensures RowAgrees(next, key, ledger[key]) {
      var row := ledger[key];
      assert RowAgrees(payments, key, row);
      if row.payment.Some? && row.payment.value in payments {
        assert Advances(payments[row.payment.value], next[row.payment.value]);
      }
    }
  }

  lemma HasCheckoutAdvances(payments: Payments, next: Payments, id: Id)
    requires HasCheckout(payments, id) && TableAdvances(payments, next)
    ensures HasCheckout(next, id)
  {
    var payment :| payment in payments && payments[payment].target == ForSubscription(id);
    assert payment in next && next[payment].target == ForSubscription(id);
  }

  lemma AwaitingPaidAdvances(subs: Subscriptions, payments: Payments, next: Payments)
    requires AwaitingPaid(subs, payments) && TableAdvances(payments, next)
    ensures AwaitingPaid(subs, next)
  {
    forall id | id in subs && subs[id].status == Awaiting ensures HasCheckout(next, id) {
      HasCheckoutAdvances(payments, next, id);
    }
  }

  /** A subscription has at most one checkout payment. */
  lemma OneCheckout(subs: Subscriptions, payments: Payments, a: Id, b: Id)
    requires UniqueKeys(payments) && AllAgree(subs, payments)
    requires a in payments && b in payments
    requires payments[a].target.ForSubscription? && payments[a].target == payments[b].target
    ensures a == b
  {
    var p := payments[a];
    assert PaymentAgrees(subs, p) && PaymentAgrees(subs, payments[b]);
    assert KeyRow(payments, p.tenant, p.key, a) && KeyRow(payments, p.tenant, p.key, b);
  }

  /** Updating a row without touching the indexed columns keeps both payment indexes. */
  lemma UpdateKeepsIndexes(payments: Payments, id: Id, q: Payment)
    requires UniqueKeys(payments) && UniqueTxns(payments)
    requires id in payments && Advances(payments[id], q)
    requires q.txnId != payments[id].txnId ==>
               q.txnId.Some? && forall other :: other != id ==> !TxnRow(payments, q.provider, q.txnId.value, other)
    ensures UniqueKeys(payments[id := q]) && UniqueTxns(payments[id := q])
  {
    var next := payments[id := q];
    assert forall tenant, key, a :: KeyRow(next, tenant, key, a) ==> KeyRow(payments, tenant, key, a);
    forall provider, txn, a, b | TxnRow(next, provider, txn, a) && TxnRow(next, provider, txn, b) ensures a == b {
      assert a != id ==> TxnRow(payments, provider, txn, a);
      assert b != id ==> TxnRow(payments, provider, txn, b);
      if q.txnId == payments[id].txnId {
        assert a == id ==> TxnRow(payments, provider, txn, a);
        assert b == id ==> TxnRow(payments, provider, txn, b);
      }
    }
  }

  /** A checkout and its subscription change together; every other payment's pair is untouched. */
  lemma PairAgrees(subs: Subscriptions, payments: Payments, id: Id, q: Payment, sub: Id, next: Subscription)
    requires AllAgree(subs, payments) && UniqueKeys(payments)
    requires id in payments && Advances(payments[id], q) && q.target == ForSubscription(sub)
    requires sub in subs && next.tenant == subs[sub].tenant
    requires next.price == subs[sub].price && next.currency == subs[sub].currency
    requires StatusAgrees(q.status, next.status)
    ensures AllAgree(subs[sub := next], payments[id := q])
  {
    var nextPayments := payments[id := q];
    forall other | other in nextPayments ensures PaymentAgrees(subs[sub := next], nextPayments[other]) {
      assert PaymentAgrees(subs, payments[other]) && PaymentAgrees(subs, payments[id]);
      if other != id && payments[other].target == payments[id].target {
        OneCheckout(subs, payments, id, other);
      }
    }
  }

  ghost predicate LedgerGrows(ledger: map<LedgerKey, LedgerRow>, next: map<LedgerKey, LedgerRow>) {
    forall key :: key in ledger ==> key in next && next[key] == ledger[key]
  }

  /** A subscription row that changes keeps its tenant, plan and price. */
  predicate SameOwner(sub: Subscription, next: Subscription) {
    next.tenant == sub.tenant && next.plan == sub.plan && next.price == sub.price && next.currency == sub.currency
  }

  ghost predicate OwnersKept(subs: Subscriptions, next: Subscriptions) {
    forall id :: id in subs ==> id in next && SameOwner(subs[id], next[id])
  }

  /** What no later step undoes. */
  ghost predicate Evolves(s: State, t: State) {
    TableAdvances(s.payments, t.payments) && OwnersKept(s.subscriptions, t.subscriptions)
      && LedgerGrows(s.ledger, t.ledger)
  }

  lemma EvolvesTransitive(s: State, t: State, u: State)
    requires Evolves(s, t) && Evolves(t, u)
    ensures Evolves(s, u)
  {
    forall id | id in s.payments ensures id in u.payments && Advances(s.payments[id], u.payments[id]) {
      assert Advances(s.payments[id], t.payments[id]) && Advances(t.payments[id], u.payments[id]);
    }
  }

  /** A step that leaves payments and ledger alone undoes nothing. */
  lemma SameEvolves(s: State, t: State)
    requires t.payments == s.payments && t.ledger == s.ledger
    requires OwnersKept(s.subscriptions, t.subscriptions)
    ensures Evolves(s, t)
  {
  }

  // ---------------------------------------------------------------- payment transitions

  lemma MarkPendingKeeps(s: State, id: Id, txn: string, now: Moment)
    requires Inv(s) && id in s.payments && MarkPending(s, id, txn, now).Ok?
    ensures Inv(MarkPending(s, id, txn, now).value)
    ensures Evolves(s, MarkPending(s, id, txn, now).value)
  {
    var p := s.payments[id];
    var q := OpenedRow(p, txn, now);
    assert StampsAgree(p) && PaymentAgrees(s.subscriptions, p);
    UpdateAdvances(s.payments, id, q);
    UpdateKeepsIndexes(s.payments, id, q);
    LedgeredAdvances(s.ledger, s.payments, s.payments[id := q]);
    AwaitingPaidAdvances(s.subscriptions, s.payments, s.payments[id := q]);
  }

  // ---------------------------------------------------------------- subscription tables

  /** Changing a row to a status that takes no new slot keeps both subscription indexes. */
  lemma UpdateKeepsSlots(subs: Subscriptions, id: Id, next: Subscription)
    requires OneLive(subs) && OneAwaiting(subs)
    requires id in subs && next.tenant == subs[id].tenant
    requires next.status != Awaiting
    requires IsLive(next.status) ==> IsLive(subs[id].status)
    ensures OneLive(subs[id := next]) && OneAwaiting(subs[id := next])
  {
    var now := subs[id := next];
    assert forall tenant, a :: LiveRow(now, tenant, a) ==> LiveRow(subs, tenant, a);
    assert forall tenant, a :: AwaitingRow(now, tenant, a) ==> AwaitingRow(subs, tenant, a);
  }

  /** Taking the live slot needs it free. */
  lemma TakeLiveSlot(subs: Subscriptions, id: Id, next: Subscription)
    requires OneLive(subs) && OneAwaiting(subs) && IsLive(next.status)
    requires forall other :: other != id ==> !LiveRow(subs, next.tenant, other)
    ensures OneLive(subs[id := next]) && OneAwaiting(subs[id := next])
  {
    var now := subs[id := next];
    assert forall tenant, a :: a != id && LiveRow(now, tenant, a) ==> LiveRow(subs, tenant, a);
    assert forall tenant, a :: AwaitingRow(now, tenant, a) ==> AwaitingRow(subs, tenant, a);
  }

  lemma TakeAwaitingSlot(subs: Subscriptions, id: Id, next: Subscription)
    requires OneLive(subs) && OneAwaiting(subs) && next.status == Awaiting
    requires forall other :: !AwaitingRow(subs, next.tenant, other)
    ensures OneLive(subs[id := next]) && OneAwaiting(subs[id := next])
  {
    var now := subs[id := next];
    assert forall tenant, a :: LiveRow(now, tenant, a) ==> LiveRow(subs, tenant, a);
    assert forall tenant, a :: a != id && AwaitingRow(now, tenant, a) ==> AwaitingRow(subs, tenant, a);
  }

  /** A live subscription has only a succeeded payment, so it may move without any payment. */
  lemma LiveRowMoves(subs: Subscriptions, payments: Payments, id: Id, next: Subscription)
    requires AllAgree(subs, payments) && AwaitingPaid(subs, payments)
    requires id in subs && IsLive(subs[id].status) && SameOwner(subs[id], next) && next.status != Awaiting
    ensures AllAgree(subs[id := next], payments) && AwaitingPaid(subs[id := next], payments)
  {
    forall p | p in payments ensures PaymentAgrees(subs[id := next], payments[p]) {
      assert PaymentAgrees(subs, payments[p]);
    }
  }

  /** A new subscription row has no payment yet. */
  lemma NewRowAgrees(subs: Subscriptions, payments: Payments, id: Id, next: Subscription)
    requires AllAgree(subs, payments) && id !in subs
    ensures AllAgree(subs[id := next], payments)
  {
    forall p | p in payments ensures PaymentAgrees(subs[id := next], payments[p]) {
      assert PaymentAgrees(subs, payments[p]);
    }
  }

  // ---------------------------------------------------------------- closing a payment

  predicate IsClosing(target: PaymentStatus) {
    target == Failed || target == Canceled || target == Expired
  }

  /** What a closing transition does to the payment table alone. */
  lemma ClosedRowKeeps(payments: Payments, id: Id, target: PaymentStatus, reason: Option<string>, now: Moment)
    requires UniqueKeys(payments) && UniqueTxns(payments) && AllStamped(payments)
    requires id in payments && IsClosing(target) && CanTransition(payments[id].status, target)
    ensures var next := payments[id := ClosedRow(payments[id], target, reason, now)];
            UniqueKeys(next) && UniqueTxns(next) && AllStamped(next) && TableAdvances(payments, next)
  {
    var q := ClosedRow(payments[id], target, reason, now);
    assert StampsAgree(payments[id]);
    UpdateAdvances(payments, id, q);
    UpdateKeepsIndexes(payments, id, q);
  }

  /** The checkout and its subscription close together. */
  lemma DroppedKeeps(subs: Subscriptions, payments: Payments, id: Id, target: PaymentStatus, reason: Option<string>,
                     now: Moment)
    requires OneLive(subs) && OneAwaiting(subs) && AllAgree(subs, payments) && UniqueKeys(payments)
    requires id in payments && IsClosing(target) && CanTransition(payments[id].status, target)
    requires AllStamped(payments)
    ensures var next := DroppedTable(subs, payments[id], target, now);
            OneLive(next) && OneAwaiting(next)
              && AllAgree(next, payments[id := ClosedRow(payments[id], target, reason, now)])
  {
    var p := payments[id];
    var q := ClosedRow(p, target, reason, now);
    assert PaymentAgrees(subs, p) && StampsAgree(p);
    if p.target.ForSubscription? {
      var row := DroppedRow(subs[p.target.subscription], target, now);
      UpdateKeepsSlots(subs, p.target.subscription, row);
      PairAgrees(subs, payments, id, q, p.target.subscription, row);
    } else {
      CallerRowAgrees(subs, payments, id, q);
    }
  }

  lemma CallerRowAgrees(subs: Subscriptions, payments: Payments, id: Id, q: Payment)
    requires AllAgree(subs, payments)
    requires id in payments && payments[id].target.ForCaller? && Advances(payments[id], q)
    ensures AllAgree(subs, payments[id := q])
  {
    assert PaymentAgrees(subs, payments[id]);
  }

  lemma DroppedStaysPaid(subs: Subscriptions, payments: Payments, next: Payments, p: Payment, target: PaymentStatus,
                         now: Moment)
    requires AwaitingPaid(subs, payments) && TableAdvances(payments, next)
    ensures AwaitingPaid(DroppedTable(subs, p, target, now), next)
  {
    AwaitingPaidAdvances(subs, payments, next);
  }

  lemma ClosePaymentKeeps(s: State, id: Id, target: PaymentStatus, reason: Option<string>, now: Moment)
    requires Inv(s) && id in s.payments && IsClosing(target)
    requires ClosePayment(s, id, target, reason, now).Ok?
    ensures Inv(ClosePayment(s, id, target, reason, now).value)
    ensures Evolves(s, ClosePayment(s, id, target, reason, now).value)
  {
    var p := s.payments[id];
    var q := ClosedRow(p, target, reason, now);
    ClosedRowKeeps(s.payments, id, target, reason, now);
    DroppedKeeps(s.subscriptions, s.payments, id, target, reason, now);
    DroppedStaysPaid(s.subscriptions, s.payments, s.payments[id := q], p, target, now);
    LedgeredAdvances(s.ledger, s.payments, s.payments[id := q]);
    assert StampsAgree(p);
    TransitionLogged(s.events, PaymentClosed(id, p.target, target), s.payments, id, q);
  }

  // ---------------------------------------------------------------- success

  lemma PaidRowKeeps(payments: Payments, id: Id, now: Moment)
    requires UniqueKeys(payments) && UniqueTxns(payments) && AllStamped(payments)
    requires id in payments && CanTransition(payments[id].status, Succeeded)
    ensures var next := payments[id := PaidRow(payments[id], now)];
            UniqueKeys(next) && UniqueTxns(next) && AllStamped(next) && TableAdvances(payments, next)
  {
    var q := PaidRow(payments[id], now);
    assert StampsAgree(payments[id]);
    UpdateAdvances(payments, id, q);
    UpdateKeepsIndexes(payments, id, q);
  }

  /** Freeing the live slot: the replaced subscription is withdrawn. */
  lemma FreeSlot(subs: Subscriptions, payments: Payments, prior: Id, now: Moment)
    requires OneLive(subs) && OneAwaiting(subs) && AllAgree(subs, payments) && AwaitingPaid(subs, payments)
    requires prior in subs && IsLive(subs[prior].status)
    ensures var freed := subs[prior := Superseded(subs[prior], now)];
            && OneLive(freed) && OneAwaiting(freed) && AllAgree(freed, payments) && AwaitingPaid(freed, payments)
            && forall other :: !LiveRow(freed, subs[prior].tenant, other)
  {
    UpdateKeepsSlots(subs, prior, Superseded(subs[prior], now));
    LiveRowMoves(subs, payments, prior, Superseded(subs[prior], now));
    var freed := subs[prior := Superseded(subs[prior], now)];
    var tenant := subs[prior].tenant;
    forall other ensures !LiveRow(freed, tenant, other) {
      if LiveRow(freed, tenant, other) {
        assert LiveRow(subs, tenant, other) && LiveRow(subs, tenant, prior);
      }
    }
  }

  /** Taking the free slot: the paid subscription becomes live together with its payment. */
  lemma TakeSlot(subs: Subscriptions, payments: Payments, id: Id, q: Payment, sub: Id, active: Subscription)
    requires OneLive(subs) && OneAwaiting(subs) && AllAgree(subs, payments) && AwaitingPaid(subs, payments)
    requires UniqueKeys(payments)
    requires id in payments && Advances(payments[id], q) && q.target == ForSubscription(sub) && q.status == Succeeded
    requires sub in subs && SameOwner(subs[sub], active) && active.status == Active
    requires forall other :: !LiveRow(subs, active.tenant, other)
    ensures var next := subs[sub := active];
            && OneLive(next) && OneAwaiting(next)
            && AllAgree(next, payments[id := q]) && AwaitingPaid(next, payments[id := q])
  {
    TakeLiveSlot(subs, sub, active);
    PairAgrees(subs, payments, id, q, sub, active);
    UpdateAdvances(payments, id, q);
    AwaitingPaidAdvances(subs, payments, payments[id := q]);
  }

  lemma SwapKeeps(plans: map<string, Plan>, subs: Subscriptions, payments: Payments, id: Id, now: Moment)
    requires OneLive(subs) && OneAwaiting(subs) && AllAgree(subs, payments) && AwaitingPaid(subs, payments)
    requires UniqueKeys(payments) && AllStamped(payments)
    requires id in payments && payments[id].target.ForSubscription?
    requires CanTransition(payments[id].status, Succeeded)
    ensures payments[id].target.subscription in subs
    ensures var next := ActivatedTable(plans, subs, payments[id].target.subscription, now);
            var paid := payments[id := PaidRow(payments[id], now)];
            OneLive(next) && OneAwaiting(next) && AllAgree(next, paid) && AwaitingPaid(next, paid)
  {
    var p := payments[id];
    assert PaymentAgrees(subs, p) && StampsAgree(p);
    var sub := p.target.subscription;
    var active := ActiveRow(plans, subs, sub, now);
    match ReplacedBy(subs, sub)
    case None =>
      TakeSlot(subs, payments, id, PaidRow(p, now), sub, active);
    case Some(prior) =>
      FreeSlot(subs, payments, prior, now);
      TakeSlot(subs[prior := Superseded(subs[prior], now)], payments, id, PaidRow(p, now), sub, active);
  }

  lemma ActivationLogged(events: seq<Event>, payments: Payments, plans: map<string, Plan>, subs: Subscriptions, id: Id,
                         now: Moment)
    requires Logged(events, payments) && id in subs
    ensures Logged(events + ActivationEvents(plans, subs, id, now), payments)
  {
    var done := SubscriptionActivated(id, subs[id].plan, ActiveRow(plans, subs, id, now).periodEnd);
    match ReplacedBy(subs, id)
    case None =>
      OtherEventLogged(events, done, payments);
    case Some(prior) =>
      var replaced := SubscriptionReplaced(prior, id);
      OtherEventLogged(events, replaced, payments);
      OtherEventLogged(events + [replaced], done, payments);
      assert events + [replaced, done] == events + [replaced] + [done];
  }

  lemma CallerSuccessKeeps(s: State, id: Id, now: Moment)
    requires Inv(s) && id in s.payments && MarkSucceeded(s, id, now).Ok?
    requires s.payments[id].target.ForCaller?
    ensures Inv(MarkSucceeded(s, id, now).value)
    ensures Evolves(s, MarkSucceeded(s, id, now).value)
  {
    var p := s.payments[id];
    var q := PaidRow(p, now);
    PaidRowKeeps(s.payments, id, now);
    LedgeredAdvances(s.ledger, s.payments, s.payments[id := q]);
    assert StampsAgree(p);
    CallerRowAgrees(s.subscriptions, s.payments, id, q);
    AwaitingPaidAdvances(s.subscriptions, s.payments, s.payments[id := q]);
    TransitionLogged(s.events, PaymentSucceeded(id, p.target, p.status == Expired), s.payments, id, q);
  }

  lemma ActivatedOwners(plans: map<string, Plan>, subs: Subscriptions, id: Id, now: Moment)
    requires id in subs
    ensures OwnersKept(subs, ActivatedTable(plans, subs, id, now))
  {
  }

  lemma SubscriptionSuccessKeeps(s: State, id: Id, now: Moment)
    requires Inv(s) && id in s.payments && MarkSucceeded(s, id, now).Ok?
    requires s.payments[id].target.ForSubscription?
    ensures Inv(MarkSucceeded(s, id, now).value)
    ensures Evolves(s, MarkSucceeded(s, id, now).value)
  {
    var p := s.payments[id];
    var q := PaidRow(p, now);
    PaidRowKeeps(s.payments, id, now);
    LedgeredAdvances(s.ledger, s.payments, s.payments[id := q]);
    SwapKeeps(s.plans, s.subscriptions, s.payments, id, now);
    ActivatedOwners(s.plans, s.subscriptions, p.target.subscription, now);
    SuccessLogged(s, id, now);
  }

  lemma SuccessLogged(s: State, id: Id, now: Moment)
    requires Logged(s.events, s.payments) && AllStamped(s.payments)
    requires id in s.payments && MarkSucceeded(s, id, now).Ok?
    requires s.payments[id].target.ForSubscription?
    ensures Logged(MarkSucceeded(s, id, now).value.events, s.payments[id := PaidRow(s.payments[id], now)])
  {
    var p := s.payments[id];
    assert StampsAgree(p);
    ActivationLogged(s.events, s.payments, s.plans, s.subscriptions, p.target.subscription, now);
    TransitionLogged(s.events + ActivationEvents(s.plans, s.subscriptions, p.target.subscription, now),
                     PaymentSucceeded(id, p.target, p.status == Expired), s.payments, id, PaidRow(p, now));
  }

  lemma MarkSucceededKeeps(s: State, id: Id, now: Moment)
    requires Inv(s) && id in s.payments && MarkSucceeded(s, id, now).Ok?
    ensures Inv(MarkSucceeded(s, id, now).value)
    ensures Evolves(s, MarkSucceeded(s, id, now).value)
  {
    if s.payments[id].target.ForSubscription? {
      SubscriptionSuccessKeeps(s, id, now);
    } else {
      CallerSuccessKeeps(s, id, now);
    }
  }

  /** In a state that keeps the invariant an allowed success never fails for want of a subscription. */
  lemma SuccessIsHonoured(s: State, id: Id, now: Moment)
    requires Inv(s) && id in s.payments
    ensures MarkSucceeded(s, id, now).Ok? <==> CanTransition(s.payments[id].status, Succeeded)
    ensures MarkSucceeded(s, id, now).Err? ==> MarkSucceeded(s, id, now).error == InvariantViolation
  {
    assert PaymentAgrees(s.subscriptions, s.payments[id]);
  }

  // ---------------------------------------------------------------- intake

  /** Inserting a payment with a key nobody has and no transaction. */
  lemma InsertKeepsIndexes(payments: Payments, id: Id, p: Payment)
    requires UniqueKeys(payments) && UniqueTxns(payments)
    requires id !in payments && p.txnId.None?
    requires forall other :: !KeyRow(payments, p.tenant, p.key, other)
    ensures UniqueKeys(payments[id := p]) && UniqueTxns(payments[id := p])
  {
    var next := payments[id := p];
    assert forall tenant, key, a :: a != id && KeyRow(next, tenant, key, a) ==> KeyRow(payments, tenant, key, a);
    assert forall provider, txn, a :: TxnRow(next, provider, txn, a) ==> TxnRow(payments, provider, txn, a);
  }

  /** Only the subscription this payment is the checkout of may still be without one. */
  lemma CreatePaymentKeeps(s: State, tenant: Id, money: Money, target: Target, provider: Provider, key: IdempotencyKey,
                           newId: Id, checkout: Option<string>)
    requires OneLive(s.subscriptions) && OneAwaiting(s.subscriptions)
    requires UniqueKeys(s.payments) && UniqueTxns(s.payments)
    requires AllAgree(s.subscriptions, s.payments) && AllStamped(s.payments)
    requires Logged(s.events, s.payments) && Ledgered(s.ledger, s.payments)
    requires forall id :: id in s.subscriptions && s.subscriptions[id].status == Awaiting
                          && target != ForSubscription(id)
                          ==> HasCheckout(s.payments, id)
    requires target.ForCaller? ==> key.CallerKey?
    requires target.ForSubscription? ==>
               && AwaitingRow(s.subscriptions, tenant, target.subscription)
               && key == SubscriptionKey(target.subscription)
               && money == Money(s.subscriptions[target.subscription].price,
                                 s.subscriptions[target.subscription].currency)
    requires CreatePayment(s, tenant, money, target, provider, key, newId, checkout).Ok?
    ensures Inv(CreatePayment(s, tenant, money, target, provider, key, newId, checkout).value.0)
    ensures Evolves(s, CreatePayment(s, tenant, money, target, provider, key, newId, checkout).value.0)
  {
    var t := CreatePayment(s, tenant, money, target, provider, key, newId, checkout).value.0;
    match ByKey(s.payments, tenant, key)
    case Some(id) =>
      assert s.payments[id].target == target;
    case None =>
      var p := t.payments[newId];
      assert t.payments == s.payments[newId := p];
      InsertKeepsIndexes(s.payments, newId, p);
      UpdateAdvances(s.payments, newId, p);
      LedgeredAdvances(s.ledger, s.payments, t.payments);
      TransitionLogged(s.events, PaymentCreated(newId, target), s.payments, newId, p);
      assert PaymentAgrees(s.subscriptions, p) && StampsAgree(p);
      forall id | id in s.subscriptions && s.subscriptions[id].status == Awaiting ensures HasCheckout(t.payments, id) {
        if target == ForSubscription(id) {
          assert newId in t.payments;
        } else {
          HasCheckoutAdvances(s.payments, t.payments, id);
        }
      }
  }

  lemma StartSubscriptionKeeps(s: State, tenant: Id, plan: string, provider: Provider, newSubscription: Id,
                               newPayment: Id, checkout: Option<string>, now: Moment)
    requires Inv(s)
    requires StartSubscription(s, tenant, plan, provider, newSubscription, newPayment, checkout, now).Ok?
    ensures Inv(StartSubscription(s, tenant, plan, provider, newSubscription, newPayment, checkout, now).value.0)
    ensures Evolves(s, StartSubscription(s, tenant, plan, provider, newSubscription, newPayment, checkout, now).value.0)
  {
    match AwaitingOf(s.subscriptions, tenant)
    case Some(id) =>
      var sub := s.subscriptions[id];
      CreatePaymentKeeps(s, tenant, Money(sub.price, sub.currency), ForSubscription(id), provider, SubscriptionKey(id),
                         newPayment, checkout);
    case None =>
      var row := NewSubscription(s.plans[plan], tenant, plan, Awaiting, now);
      TakeAwaitingSlot(s.subscriptions, newSubscription, row);
      NewRowAgrees(s.subscriptions, s.payments, newSubscription, row);
      CreatePaymentKeeps(s.(subscriptions := s.subscriptions[newSubscription := row]), tenant,
                         Money(row.price, row.currency), ForSubscription(newSubscription), provider,
                         SubscriptionKey(newSubscription), newPayment, checkout);
  }

  // ---------------------------------------------------------------- subscription steps

  /** A step that moves one live row and emits one subscription event, or none. */
  lemma LiveStepKeeps(s: State, id: Id, next: Subscription)
    requires Inv(s) && id in s.subscriptions && IsLive(s.subscriptions[id].status)
    requires SameOwner(s.subscriptions[id], next) && next.status != Awaiting
    ensures Inv(s.(subscriptions := s.subscriptions[id := next]))
    ensures Evolves(s, s.(subscriptions := s.subscriptions[id := next]))
  {
    UpdateKeepsSlots(s.subscriptions, id, next);
    LiveRowMoves(s.subscriptions, s.payments, id, next);
  }

  lemma EventKeeps(s: State, e: Event)
    requires Inv(s) && forall id: Id :: !About(e, id)
    ensures Inv(s.(events := s.events + [e]))
  {
    OtherEventLogged(s.events, e, s.payments);
  }

  lemma CancelSubscriptionKeeps(s: State, tenant: Id, now: Moment)
    requires Inv(s) && CancelSubscription(s, tenant, now).Ok?
    ensures Inv(CancelSubscription(s, tenant, now).value) && Evolves(s, CancelSubscription(s, tenant, now).value)
  {
    SameEvolves(s, CancelSubscription(s, tenant, now).value);
    var id := LiveOf(s.subscriptions, tenant).value;
    var sub := s.subscriptions[id];
    var next := sub.(cancelAtPeriodEnd := true, canceledAt := Some(now));
    LiveStepKeeps(s, id, next);
    EventKeeps(s.(subscriptions := s.subscriptions[id := next]), SubscriptionCanceled(id, sub.plan));
  }

  /** A new live row for a tenant without one. */
  lemma NewLiveKeeps(s: State, id: Id, sub: Subscription)
    requires Inv(s) && id !in s.subscriptions && IsLive(sub.status)
    requires forall other :: !LiveRow(s.subscriptions, sub.tenant, other)
    ensures Inv(s.(subscriptions := s.subscriptions[id := sub]))
  {
    TakeLiveSlot(s.subscriptions, id, sub);
    NewRowAgrees(s.subscriptions, s.payments, id, sub);
  }

  lemma AutoSubscribeKeeps(s: State, tenant: Id, plan: string, newId: Id, now: Moment)
    requires Inv(s) && AutoSubscribe(s, tenant, plan, newId, now).Ok?
    ensures Inv(AutoSubscribe(s, tenant, plan, newId, now).value)
    ensures Evolves(s, AutoSubscribe(s, tenant, plan, newId, now).value)
  {
    var t := AutoSubscribe(s, tenant, plan, newId, now).value;
    SameEvolves(s, t);
    if LiveOf(s.subscriptions, tenant).None? {
      var p := s.plans[plan];
      var sub := NewSubscription(p, tenant, plan, if p.trialDays > 0 then Trialing else Active, now);
      NewLiveKeeps(s, newId, sub);
      EventKeeps(s.(subscriptions := s.subscriptions[newId := sub]), SubscriptionActivated(newId, plan, sub.periodEnd));
    }
  }

  lemma EndPeriodKeeps(s: State, id: Id, now: Moment)
    requires Inv(s) && id in s.subscriptions && IsLive(s.subscriptions[id].status)
    ensures Inv(EndPeriod(s, id, now)) && Evolves(s, EndPeriod(s, id, now))
  {
    var row := EndedRow(s.subscriptions[id], now);
    LiveStepKeeps(s, id, row);
    EventKeeps(s.(subscriptions := s.subscriptions[id := row]), SubscriptionEnded(id, row.plan, row.status));
  }

  lemma CloseEndedPeriodKeeps(s: State, tenant: Id, id: Id, fallback: Option<string>, newId: Id, now: Moment)
    requires Inv(s) && CloseEndedPeriod(s, tenant, id, fallback, newId, now).Ok?
    ensures Inv(CloseEndedPeriod(s, tenant, id, fallback, newId, now).value.0)
    ensures Evolves(s, CloseEndedPeriod(s, tenant, id, fallback, newId, now).value.0)
  {
    if PeriodDue(s, tenant, id, now) {
      if RollsForward(s.plans, s.subscriptions[id]) {
        LiveStepKeeps(s, id, RolledRow(s.plans, s.subscriptions[id], now));
      } else {
        var ended := EndPeriod(s, id, now);
        EndPeriodKeeps(s, id, now);
        if fallback.Some? && AutoSubscribe(ended, tenant, fallback.value, newId, now).Ok? {
          AutoSubscribeKeeps(ended, tenant, fallback.value, newId, now);
          EvolvesTransitive(s, ended, AutoSubscribe(ended, tenant, fallback.value, newId, now).value);
        }
      }
    }
  }
}
