/**
 Runs of the billing protocol: users, providers, both sweeps and other features take steps in any
 order, each its own transaction, at any time the clock may read.
 */
module BillingRuns {
  import opened Base
  import opened Calendar
  import opened Billing
  import opened Adapters
  import opened Webhooks
  import opened BillingInvariant

  datatype Step =
    | TakePayment(tenant: Id, money: Money, purpose: string, reference: string, provider: Provider, key: string,
                  newPayment: Id, checkout: Option<string>)
    | Start(tenant: Id, plan: string, provider: Provider, newSubscription: Id, newPayment: Id,
            checkout: Option<string>, now: Moment)
    | CancelPlan(tenant: Id, now: Moment)
    | AutoStart(tenant: Id, plan: string, newSubscription: Id, now: Moment)
    | CancelOpen(tenant: Id, payment: Id, now: Moment)
    | Fail(payment: Id, reason: string, now: Moment)
    | ExpireSwept(payment: Id, now: Moment)
    | EndSwept(tenant: Id, subscription: Id, fallback: Option<string>, newSubscription: Id, now: Moment)
    | Receive(request: Request, digest: string, now: Moment)
    | Catalogue(plans: map<string, Plan>, providers: set<Provider>)

  function Committed(s: State, r: Outcome<State>): State {
    if r.Ok? then r.value else s
  }

  function CommittedFirst<T>(s: State, r: Outcome<(State, T)>): State {
    if r.Ok? then r.value.0 else s
  }

  function StateAfter(s: State, d: Delivery): State {
    if d.Replied? then d.state else s
  }

  /** One transaction; an error rolls it back. */
  ghost function Apply(s: State, step: Step): State {
    match step
    case TakePayment(tenant, money, purpose, reference, provider, key, newPayment, checkout) =>
      CommittedFirst(s, CreatePayment(s, tenant, money, ForCaller(purpose, reference), provider, CallerKey(key),
                                      newPayment, checkout))
    case Start(tenant, plan, provider, newSubscription, newPayment, checkout, now) =>
      CommittedFirst(s, StartSubscription(s, tenant, plan, provider, newSubscription, newPayment, checkout, now))
    case CancelPlan(tenant, now) => Committed(s, CancelSubscription(s, tenant, now))
    case AutoStart(tenant, plan, newSubscription, now) =>
      Committed(s, AutoSubscribe(s, tenant, plan, newSubscription, now))
    case CancelOpen(tenant, payment, now) => Committed(s, CancelPayment(s, tenant, payment, now))
    case Fail(payment, reason, now) =>
      if payment in s.payments then Committed(s, ClosePayment(s, payment, Failed, Some(reason), now)) else s
    case ExpireSwept(payment, now) => Committed(s, ExpireCheckout(s, payment, now))
    case EndSwept(tenant, subscription, fallback, newSubscription, now) =>
      CommittedFirst(s, CloseEndedPeriod(s, tenant, subscription, fallback, newSubscription, now))
    case Receive(request, digest, now) => StateAfter(s, Deliver(s, request, digest, now))
    case Catalogue(plans, providers) => s.(plans := plans, providers := providers)
  }

  ghost function Run(s: State, steps: seq<Step>): State {
    if steps == [] then s else Apply(Run(s, steps[..|steps| - 1]), steps[|steps| - 1])
  }

  function Empty(plans: map<string, Plan>, providers: set<Provider>): State {
    State(plans, providers, map[], map[], map[], [])
  }

  // ---------------------------------------------------------------- evolution

  lemma ApplyActionKeeps(s: State, id: Id, c: Callback, now: Moment)
    requires Inv(s) && id in s.payments && ApplyAction(s, id, c, now).Ok?
    ensures Inv(ApplyAction(s, id, c, now).value) && Evolves(s, ApplyAction(s, id, c, now).value)
  {
    match c.action
    case Create => MarkPendingKeeps(s, id, if c.txn.Some? then c.txn.value else "", now);
    case Confirm => MarkSucceededKeeps(s, id, now);
    case Cancel => ClosePaymentKeeps(s, id, Canceled, c.reason, now);
  }

  /** The ledger is the dispatcher's to write, and the payment ends as the action says. */
  lemma ApplyActionSettles(s: State, id: Id, c: Callback, now: Moment)
    requires id in s.payments && ApplyAction(s, id, c, now).Ok?
    ensures ApplyAction(s, id, c, now).value.ledger == s.ledger
    ensures id in ApplyAction(s, id, c, now).value.payments
    ensures ProcessedAgrees(ApplyAction(s, id, c, now).value.payments[id], c.action)
  {
  }

  lemma JournalKeeps(s: State, key: LedgerKey, row: LedgerRow)
    requires Inv(s) && key !in s.ledger && RowAgrees(s.payments, key, row)
    ensures Inv(Journal(s, key, row)) && Evolves(s, Journal(s, key, row))
  {
  }

  lemma ActKeeps(s: State, id: Id, c: Callback, now: Moment)
    requires Inv(s) && id in s.payments && !ReadOnly(c.action) && Act(s, id, c, now).Ok?
    ensures var (next, row, _) := Act(s, id, c, now).value;
            Inv(next) && Evolves(s, next) && next.ledger == s.ledger && RowAgrees(next.payments, KeyOf(c), row)
  {
    if ApplyAction(s, id, c, now).Ok? {
      ApplyActionKeeps(s, id, c, now);
      ApplyActionSettles(s, id, c, now);
    }
  }

  lemma TransitionKeeps(s: State, c: Callback, now: Moment)
    requires Inv(s) && !ReadOnly(c.action) && Transition(s, c, now).Ok?
    ensures var (next, row, _) := Transition(s, c, now).value;
            Inv(next) && Evolves(s, next) && next.ledger == s.ledger && RowAgrees(next.payments, KeyOf(c), row)
  {
    var id := FindPayment(s, c);
    if id.Some? && AmountOk(c, s.payments[id.value]) {
      ActKeeps(s, id.value, c, now);
    }
  }

  lemma FirstDeliveryKeeps(s: State, c: Callback, now: Moment)
    requires Inv(s) && !ReadOnly(c.action) && KeyOf(c) !in s.ledger && Transition(s, c, now).Ok?
    ensures var (next, row, _) := Transition(s, c, now).value;
            Inv(Journal(next, KeyOf(c), row)) && Evolves(s, Journal(next, KeyOf(c), row))
  {
    TransitionKeeps(s, c, now);
    var (next, row, _) := Transition(s, c, now).value;
    JournalKeeps(next, KeyOf(c), row);
    EvolvesTransitive(s, next, Journal(next, KeyOf(c), row));
  }

  lemma DispatchKeeps(s: State, r: Request, c: Callback, digest: string, now: Moment)
    requires Inv(s)
    ensures Inv(StateAfter(s, Dispatch(s, r, c, digest, now)))
            && Evolves(s, StateAfter(s, Dispatch(s, r, c, digest, now)))
  {
    if !ReadOnly(c.action) && !c.authentic && Rejected(c.provider, digest) !in s.ledger {
      JournalKeeps(s, Rejected(c.provider, digest), LedgerRow(BadSignature, None));
    }
    if !ReadOnly(c.action) && c.authentic && KeyOf(c) !in s.ledger && Transition(s, c, now).Ok? {
      FirstDeliveryKeeps(s, c, now);
    }
  }

  lemma DeliverKeeps(s: State, r: Request, digest: string, now: Moment)
    requires Inv(s)
    ensures Inv(StateAfter(s, Deliver(s, r, digest, now))) && Evolves(s, StateAfter(s, Deliver(s, r, digest, now)))
  {
    if RequestProvider(r) in s.providers && Parse(r).Recognised? {
      DispatchKeeps(s, r, Parse(r).callback, digest, now);
    }
  }

  /** Steps that open something: a checkout, a subscription or both. */
  predicate Opens(step: Step) {
    step.TakePayment? || step.Start?
  }

  /** Steps that move a payment. */
  predicate Moves(step: Step) {
    step.CancelOpen? || step.Fail? || step.ExpireSwept? || step.Receive?
  }

  lemma OpeningKeeps(s: State, step: Step)
    requires Inv(s) && Opens(step)
    ensures Inv(Apply(s, step)) && Evolves(s, Apply(s, step))
  {
    match step
    case TakePayment(tenant, money, purpose, reference, provider, key, newPayment, checkout) =>
      if CreatePayment(s, tenant, money, ForCaller(purpose, reference), provider, CallerKey(key), newPayment,
                       checkout).Ok? {
        CreatePaymentKeeps(s, tenant, money, ForCaller(purpose, reference), provider, CallerKey(key), newPayment,
                           checkout);
      }
    case Start(tenant, plan, provider, newSubscription, newPayment, checkout, now) =>
      if StartSubscription(s, tenant, plan, provider, newSubscription, newPayment, checkout, now).Ok? {
        StartSubscriptionKeeps(s, tenant, plan, provider, newSubscription, newPayment, checkout, now);
      }
  }

  lemma ClosingKeeps(s: State, step: Step)
    requires Inv(s) && Moves(step) && !step.Receive?
    ensures Inv(Apply(s, step)) && Evolves(s, Apply(s, step))
  {
    match step
    case CancelOpen(tenant, payment, now) =>
      if CancelPayment(s, tenant, payment, now).Ok? {
        ClosePaymentKeeps(s, payment, Canceled, None, now);
      }
    case Fail(payment, reason, now) =>
      if payment in s.payments && ClosePayment(s, payment, Failed, Some(reason), now).Ok? {
        ClosePaymentKeeps(s, payment, Failed, Some(reason), now);
      }
    case ExpireSwept(payment, now) =>
      if payment in s.payments && IsOpen(s.payments[payment].status) {
        ClosePaymentKeeps(s, payment, Expired, None, now);
      }
  }

  lemma ReceivingKeeps(s: State, request: Request, digest: string, now: Moment)
    requires Inv(s)
    ensures Inv(Apply(s, Receive(request, digest, now))) && Evolves(s, Apply(s, Receive(request, digest, now)))
  {
    DeliverKeeps(s, request, digest, now);
  }

  lemma PlanStepKeeps(s: State, step: Step)
    requires Inv(s) && !Opens(step) && !Moves(step)
    ensures Inv(Apply(s, step)) && Evolves(s, Apply(s, step))
  {
    match step
    case CancelPlan(tenant, now) =>
      if CancelSubscription(s, tenant, now).Ok? {
        CancelSubscriptionKeeps(s, tenant, now);
      }
    case AutoStart(tenant, plan, newSubscription, now) =>
      if AutoSubscribe(s, tenant, plan, newSubscription, now).Ok? {
        AutoSubscribeKeeps(s, tenant, plan, newSubscription, now);
      }
    case EndSwept(tenant, subscription, fallback, newSubscription, now) =>
      if CloseEndedPeriod(s, tenant, subscription, fallback, newSubscription, now).Ok? {
        CloseEndedPeriodKeeps(s, tenant, subscription, fallback, newSubscription, now);
      }
    case Catalogue(_, _) =>
  }

  lemma ApplyKeeps(s: State, step: Step)
    requires Inv(s)
    ensures Inv(Apply(s, step)) && Evolves(s, Apply(s, step))
  {
    if Opens(step) {
      OpeningKeeps(s, step);
    } else if step.Receive? {
      ReceivingKeeps(s, step.request, step.digest, step.now);
    } else if Moves(step) {
      ClosingKeeps(s, step);
    } else {
      PlanStepKeeps(s, step);
    }
  }

  lemma {:induction false} RunKeeps(s: State, steps: seq<Step>)
    requires Inv(s)
    ensures Inv(Run(s, steps)) && Evolves(s, Run(s, steps))
  {
    if steps != [] {
      var before := Run(s, steps[..|steps| - 1]);
      RunKeeps(s, steps[..|steps| - 1]);
      ApplyKeeps(before, steps[|steps| - 1]);
      EvolvesTransitive(s, before, Run(s, steps));
    }
  }

  lemma EmptyKeeps(plans: map<string, Plan>, providers: set<Provider>)
    ensures Inv(Empty(plans, providers))
  {
    assert forall id: Id :: PaymentLog([], id) == [];
  }
}
