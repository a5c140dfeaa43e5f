/**
 Orders driven by payment events. Events arrive through an at-least-once queue, in any order and
 any number of times; each handler is one transaction. The order still ends where its payment did.
 */
module Orders {
  import opened Base
  import opened Billing
  import opened BillingInvariant
  import opened BillingRuns
  import opened BillingTheorems
  import opened Adapters
  import opened Webhooks
  import opened Calendar

  const ORDER_PURPOSE := "commerce.order"

  datatype OrderStatus = AwaitingPayment | Paid | Dropped

  datatype Line = Line(product: Id, quantity: int, unitPrice: int, currency: string)

  datatype Order = Order(
    customer: Id,
    status: OrderStatus,
    total: int,
    currency: string,
    payment: Option<Id>,
    lines: seq<Line>)

  datatype OrderEvent =
    | OrderPaid(order: string, payment: Option<Id>, revived: bool)
    | OrderCanceled(order: string, reason: PaymentStatus)

  datatype Book = Book(orders: map<string, Order>, emitted: seq<OrderEvent>)

  // ---------------------------------------------------------------- the handlers' transactions

  /** A late success of the order's own payment revives an order that expiry had canceled. */
  predicate CanRevive(o: Order, payment: Option<Id>, late: bool) {
    late && payment.Some? && o.payment == payment
  }

  function MarkPaid(b: Book, order: string, payment: Option<Id>, late: bool): Book {
    if order !in b.orders then b
    else
      var o := b.orders[order];
      if o.status == Paid || (o.status == Dropped && !CanRevive(o, payment, late)) then b
      else Book(b.orders[order := o.(status := Paid, payment := if payment.Some? then payment else o.payment)],
                b.emitted + [OrderPaid(order, payment, o.status == Dropped)])
  }

  /** A paid order is not canceled by a late failure. */
  function CancelOrder(b: Book, order: string, reason: PaymentStatus): Book {
    if order !in b.orders || b.orders[order].status != AwaitingPayment then b
    else Book(b.orders[order := b.orders[order].(status := Dropped)], b.emitted + [OrderCanceled(order, reason)])
  }

  predicate Settles(e: Event) {
    e.PaymentSucceeded? || e.PaymentClosed?
  }

  /** The order a payment event belongs to, if it is an order's payment. */
  predicate Names(e: Event, order: string) {
    Settles(e) && order != "" && e.target == ForCaller(ORDER_PURPOSE, order)
  }

  function Handle(b: Book, e: Event): Book {
    if !Settles(e) || !e.target.ForCaller? || e.target.purpose != ORDER_PURPOSE || e.target.reference == "" then b
    else if e.PaymentSucceeded? then MarkPaid(b, e.target.reference, Some(e.payment), e.late)
    else CancelOrder(b, e.target.reference, e.status)
  }

  function HandleAll(b: Book, deliveries: seq<Event>): Book {
    if deliveries == [] then b
    else Handle(HandleAll(b, deliveries[..|deliveries| - 1]), deliveries[|deliveries| - 1])
  }

  // ---------------------------------------------------------------- confluence

  /** Where the delivered events alone put the order. */
  ghost function Verdict(deliveries: seq<Event>, order: string): OrderStatus {
    if exists e :: e in deliveries && Names(e, order) && e.PaymentSucceeded? then Paid
    else if exists e :: e in deliveries && Names(e, order) then Dropped
    else AwaitingPayment
  }

  /** The delivered events that name the order come from one payment's history. */
  ghost predicate FromHistory(deliveries: seq<Event>, order: string, id: Id, p: Payment) {
    forall e :: e in deliveries && Names(e, order) ==> e in ExpectedLog(id, p)
  }

  function Times(emitted: seq<OrderEvent>, order: string, paid: bool): nat {
    if emitted == [] then 0
    else
      var last := emitted[|emitted| - 1];
      Times(emitted[..|emitted| - 1], order, paid)
      + if last.order == order && last.OrderPaid? == paid then 1 else 0
  }

  lemma TimesAppend(emitted: seq<OrderEvent>, e: OrderEvent, order: string, paid: bool)
    ensures Times(emitted + [e], order, paid)
            == Times(emitted, order, paid) + if e.order == order && e.OrderPaid? == paid then 1 else 0
  {
    assert (emitted + [e])[..|emitted|] == emitted;
  }

  lemma VerdictAppend(deliveries: seq<Event>, e: Event, order: string)
    ensures Verdict(deliveries + [e], order)
            == if !Names(e, order) then Verdict(deliveries, order)
               else if e.PaymentSucceeded? || Verdict(deliveries, order) == Paid then Paid
               else Dropped
  {
    var all := deliveries + [e];
    assert e in all && forall x :: x in all <==> x in deliveries || x == e;
  }

  /** One handler transaction, seen from one order. */
  lemma HandleStep(b: Book, e: Event, order: string)
    requires order in b.orders && order != ""
    ensures var c := Handle(b, e);
            && order in c.orders
            && (!Names(e, order) ==> c.orders[order] == b.orders[order]
                                     && forall paid :: Times(c.emitted, order, paid) == Times(b.emitted, order, paid))
  {
    var c := Handle(b, e);
    if c.emitted != b.emitted {
      var x := c.emitted[|b.emitted|];
      assert c.emitted == b.emitted + [x];
      TimesAppend(b.emitted, x, order, true);
      TimesAppend(b.emitted, x, order, false);
    }
  }

  /** A success that marks the order paid: any while it waits, its own payment's late one after it was canceled. */
  predicate Wins(o: Order, e: Event) {
    e.PaymentSucceeded? && (o.status == AwaitingPayment
                            || (o.status == Dropped && e.late && o.payment == Some(e.payment)))
  }

  /** A handler that names the order: such a success wins, a closing only counts while nothing else has. */
  lemma HandleNamed(b: Book, e: Event, order: string)
    requires order in b.orders && Names(e, order)
    ensures var c := Handle(b, e);
            var o := b.orders[order];
            && order in c.orders
            && c.orders[order] == o.(status := if Wins(o, e) || o.status == Paid then Paid else Dropped,
                                     payment := if Wins(o, e) then Some(e.payment) else o.payment)
            && c.emitted == b.emitted + (if Wins(o, e) then [OrderPaid(order, Some(e.payment), o.status == Dropped)]
                                         else if e.PaymentClosed? && o.status == AwaitingPayment
                                         then [OrderCanceled(order, e.status)] else [])
            && Times(c.emitted, order, true) == Times(b.emitted, order, true) + (if Wins(o, e) then 1 else 0)
            && Times(c.emitted, order, false)
               == Times(b.emitted, order, false) + (if e.PaymentClosed? && o.status == AwaitingPayment then 1 else 0)
  {
    var out := if e.PaymentSucceeded? then OrderPaid(order, Some(e.payment), b.orders[order].status == Dropped)
               else OrderCanceled(order, e.status);
    TimesAppend(b.emitted, out, order, true);
    TimesAppend(b.emitted, out, order, false);
  }

  /** In one payment's history a success beside a closing is always flagged late. */
  lemma SuccessAfterClosingIsLate(id: Id, p: Payment, success: Event, closing: Event)
    requires success in ExpectedLog(id, p) && closing in ExpectedLog(id, p)
    requires success.PaymentSucceeded? && closing.PaymentClosed?
    ensures success.late
  {
  }

  predicate Counted(b: Book, c: Book, order: string)
    requires order in c.orders
  {
    && Times(c.emitted, order, true)
       == Times(b.emitted, order, true) + (if c.orders[order].status == Paid then 1 else 0)
    && Times(c.emitted, order, false)
       <= Times(b.emitted, order, false) + (if c.orders[order].status == AwaitingPayment then 0 else 1)
  }

  /** Where the deliveries so far have put the order that `b` had waiting for its payment. */
  ghost predicate Stands(b: Book, c: Book, order: string, verdict: OrderStatus)
    requires order in b.orders
  {
    && order in c.orders
    && c.orders[order] == b.orders[order].(status := verdict)
    && Counted(b, c, order)
  }

  /** A success in one payment's history that follows a closing of it is late. */
  lemma LateAfterClosing(rest: seq<Event>, e: Event, order: string, id: Id, p: Payment)
    requires FromHistory(rest + [e], order, id, p) && Names(e, order) && e.PaymentSucceeded?
    ensures Verdict(rest, order) == Dropped ==> e.late
  {
    assert e in rest + [e];
    if Verdict(rest, order) == Dropped {
      var closing :| closing in rest && Names(closing, order) && !closing.PaymentSucceeded?;
      assert closing in rest + [e];
      SuccessAfterClosingIsLate(id, p, e, closing);
    }
  }

  /** One more delivery that names the order. */
  lemma NamedDelivery(b: Book, c: Book, e: Event, order: string, verdict: OrderStatus)
    requires order in b.orders && Names(e, order) && b.orders[order].payment == Some(e.payment)
    requires Stands(b, c, order, verdict) && (verdict == Dropped && e.PaymentSucceeded? ==> e.late)
    ensures Stands(b, Handle(c, e), order, if e.PaymentSucceeded? || verdict == Paid then Paid else Dropped)
  {
    HandleNamed(c, e, order);
  }

  /**
   Whatever the order and the repetitions, the order's status is decided by which events of its
   payment arrived, and each of its own events is emitted at most once.
   */
  lemma {:induction false} DeliveryOrderDoesNotMatter(b: Book, deliveries: seq<Event>, order: string, id: Id,
                                                      p: Payment)
    requires order in b.orders && order != ""
    requires b.orders[order].status == AwaitingPayment && b.orders[order].payment == Some(id)
    requires FromHistory(deliveries, order, id, p)
    ensures Stands(b, HandleAll(b, deliveries), order, Verdict(deliveries, order))
    decreases |deliveries|
  {
    if deliveries != [] {
      var rest, e := deliveries[..|deliveries| - 1], deliveries[|deliveries| - 1];
      assert deliveries == rest + [e];
      DeliveryOrderDoesNotMatter(b, rest, order, id, p);
      VerdictAppend(rest, e, order);
      var c := HandleAll(b, rest);
      if Names(e, order) {
        assert e in ExpectedLog(id, p);
        if e.PaymentSucceeded? {
          LateAfterClosing(rest, e, order, id, p);
        }
        NamedDelivery(b, c, e, order, Verdict(rest, order));
      } else {
        HandleStep(c, e, order);
      }
    }
  }

  // ---------------------------------------------------------------- with billing

  lemma {:induction false} LogHolds(events: seq<Event>, e: Event, id: Id)
    ensures e in PaymentLog(events, id) <==> e in events && About(e, id)
  {
    if events != [] {
      LogHolds(events[..|events| - 1], e, id);
      assert events == events[..|events| - 1] + [events[|events| - 1]];
    }
  }

  /** Payments for orders are only opened by placing one: the owner's tenant, keyed by the order. */
  predicate PlacesOrders(step: Step, owner: string -> Id) {
    step.TakePayment? && step.purpose == ORDER_PURPOSE ==>
      step.tenant == owner(step.reference) && step.key == "order:" + step.reference
  }

  ghost predicate KeyedByOrder(p: Payment, owner: string -> Id) {
    forall order :: p.target == ForCaller(ORDER_PURPOSE, order)
      ==> p.tenant == owner(order) && p.key == CallerKey("order:" + order)
  }

  ghost predicate OrderKeyed(payments: map<Id, Payment>, owner: string -> Id) {
    forall id :: id in payments ==> KeyedByOrder(payments[id], owner)
  }

  lemma CallbackAddsNone(s: State, r: Request, digest: string, now: Moment)
    ensures StateAfter(s, Deliver(s, r, digest, now)).payments.Keys == s.payments.Keys
  {
    CallbackStaysInTenant(s, r, digest, now);
  }

  lemma OpeningKeyed(s: State, step: Step, id: Id, owner: string -> Id)
    requires Opens(step) && id in Apply(s, step).payments && id !in s.payments && PlacesOrders(step, owner)
    ensures KeyedByOrder(Apply(s, step).payments[id], owner)
  {
  }

  lemma OthersAddNone(s: State, step: Step)
    requires !Opens(step)
    ensures Apply(s, step).payments.Keys == s.payments.Keys
  {
    if step.Receive? {
      CallbackAddsNone(s, step.request, step.digest, step.now);
    }
  }

  lemma AdvancesKeyed(was: map<Id, Payment>, now: map<Id, Payment>, owner: string -> Id)
    requires OrderKeyed(was, owner) && TableAdvances(was, now)
    requires forall id :: id in now && id !in was ==> KeyedByOrder(now[id], owner)
    ensures OrderKeyed(now, owner)
  {
    forall id: Id | id in now ensures KeyedByOrder(now[id], owner) {
      if id in was {
        assert Advances(was[id], now[id]) && KeyedByOrder(was[id], owner);
      }
    }
  }

  lemma StepKeysOrders(s: State, step: Step, owner: string -> Id)
    requires Inv(s) && OrderKeyed(s.payments, owner) && PlacesOrders(step, owner)
    ensures OrderKeyed(Apply(s, step).payments, owner)
  {
    ApplyKeeps(s, step);
    forall id: Id | id in Apply(s, step).payments && id !in s.payments
      ensures KeyedByOrder(Apply(s, step).payments[id], owner)
    {
      if !Opens(step) {
        OthersAddNone(s, step);
      } else {
        OpeningKeyed(s, step, id, owner);
      }
    }
    AdvancesKeyed(s.payments, Apply(s, step).payments, owner);
  }

  lemma {:induction false} RunKeysOrders(plans: map<string, Plan>, providers: set<Provider>, steps: seq<Step>,
                                         owner: string -> Id)
    requires forall i :: 0 <= i < |steps| ==> PlacesOrders(steps[i], owner)
    ensures OrderKeyed(Run(Empty(plans, providers), steps).payments, owner)
  {
    if steps != [] {
      RunKeysOrders(plans, providers, steps[..|steps| - 1], owner);
      EmptyKeeps(plans, providers);
      RunKeeps(Empty(plans, providers), steps[..|steps| - 1]);
      StepKeysOrders(Run(Empty(plans, providers), steps[..|steps| - 1]), steps[|steps| - 1], owner);
    }
  }

  /** So an order has one payment at most, in every run. */
  lemma OnePaymentPerOrder(plans: map<string, Plan>, providers: set<Provider>, steps: seq<Step>, owner: string -> Id,
                           order: string, a: Id, b: Id)
    requires forall i :: 0 <= i < |steps| ==> PlacesOrders(steps[i], owner)
    ensures var s := Run(Empty(plans, providers), steps);
            (&& a in s.payments && b in s.payments
             && s.payments[a].target == s.payments[b].target == ForCaller(ORDER_PURPOSE, order)) ==> a == b
  {
    EmptyKeeps(plans, providers);
    RunKeeps(Empty(plans, providers), steps);
    RunKeysOrders(plans, providers, steps, owner);
    var s := Run(Empty(plans, providers), steps);
    if a in s.payments && b in s.payments
       && s.payments[a].target == s.payments[b].target == ForCaller(ORDER_PURPOSE, order) {
      var key := CallerKey("order:" + order);
      assert KeyedByOrder(s.payments[a], owner) && KeyedByOrder(s.payments[b], owner);
      assert KeyRow(s.payments, owner(order), key, a) && KeyRow(s.payments, owner(order), key, b);
    }
  }

  /**
   Once every event of an order's payment has been delivered, in any order and with any
   repetitions, the order is paid exactly if the payment succeeded and canceled exactly if the
   payment closed without success.
   */
  lemma OrderFollowsPayment(plans: map<string, Plan>, providers: set<Provider>, steps: seq<Step>, owner: string -> Id,
                            id: Id, order: string, b: Book, deliveries: seq<Event>)
    requires forall i :: 0 <= i < |steps| ==> PlacesOrders(steps[i], owner)
    requires var s := Run(Empty(plans, providers), steps);
             && id in s.payments && order != "" && s.payments[id].target == ForCaller(ORDER_PURPOSE, order)
             && (forall e :: e in deliveries ==> e in s.events)
             && (forall e :: e in s.events && About(e, id) && Settles(e) ==> e in deliveries)
    requires order in b.orders && b.orders[order].status == AwaitingPayment && b.orders[order].payment == Some(id)
    ensures order in HandleAll(b, deliveries).orders
    ensures var status := HandleAll(b, deliveries).orders[order].status;
            var paid := Run(Empty(plans, providers), steps).payments[id].status;
            && (status == Paid <==> paid == Succeeded)
            && (status == Dropped <==> IsClosing(paid))
            && (status == AwaitingPayment <==> IsOpen(paid))
  {
    var s := Run(Empty(plans, providers), steps);
    EmptyKeeps(plans, providers);
    RunKeeps(Empty(plans, providers), steps);
    forall other: Id | other in s.payments && s.payments[other].target == s.payments[id].target ensures other == id {
      OnePaymentPerOrder(plans, providers, steps, owner, order, other, id);
    }
    SettledByHistory(s.events, s.payments, id, order, b, deliveries);
  }

  lemma SettledByHistory(events: seq<Event>, payments: map<Id, Payment>, id: Id, order: string, b: Book,
                         deliveries: seq<Event>)
    requires Logged(events, payments)
    requires id in payments && order != "" && payments[id].target == ForCaller(ORDER_PURPOSE, order)
    requires forall other :: other in payments && payments[other].target == payments[id].target ==> other == id
    requires order in b.orders && b.orders[order].status == AwaitingPayment && b.orders[order].payment == Some(id)
    requires forall e :: e in deliveries ==> e in events
    requires forall e :: e in events && About(e, id) && Settles(e) ==> e in deliveries
    ensures order in HandleAll(b, deliveries).orders
    ensures var status := HandleAll(b, deliveries).orders[order].status;
            && (status == Paid <==> payments[id].status == Succeeded)
            && (status == Dropped <==> IsClosing(payments[id].status))
            && (status == AwaitingPayment <==> IsOpen(payments[id].status))
  {
    var p := payments[id];
    forall e | e in deliveries && Names(e, order) ensures e in ExpectedLog(id, p) {
      LogHolds(events, e, e.payment);
      assert e in LogOf(payments, e.payment);
      assert payments[e.payment].target == p.target;
    }
    forall e | e in ExpectedLog(id, p) && Settles(e) ensures e in deliveries {
      LogHolds(events, e, id);
      assert e in LogOf(payments, id);
    }
    VerdictOfHistory(deliveries, order, id, p);
    DeliveryOrderDoesNotMatter(b, deliveries, order, id, p);
  }

  lemma VerdictOfHistory(deliveries: seq<Event>, order: string, id: Id, p: Payment)
    requires order != "" && p.target == ForCaller(ORDER_PURPOSE, order)
    requires FromHistory(deliveries, order, id, p)
    requires forall e :: e in ExpectedLog(id, p) && Settles(e) ==> e in deliveries
    ensures Verdict(deliveries, order)
            == if p.status == Succeeded then Paid else if IsClosing(p.status) then Dropped else AwaitingPayment
  {
    var log := ExpectedLog(id, p);
    if p.status == Succeeded {
      var done := PaymentSucceeded(id, p.target, p.closedAt.Some?);
      assert log[|log| - 1] == done;
      assert done in log && Names(done, order);
    } else if IsClosing(p.status) {
      var closing := PaymentClosed(id, p.target, p.status);
      assert log[1] == closing;
      assert closing in log && Names(closing, order);
    }
  }
}
