/**
 What a tenant's subscription is worth over whole runs: nobody has a priced plan without having
 paid its price, a period is never extended without a payment, and a cancellation holds.
 */
module BillingAccess {
  import opened Base
  import opened Calendar
  import opened Billing
  import opened Adapters
  import opened Webhooks
  import opened BillingInvariant
  import opened BillingRuns
  import opened BillingTheorems
  import opened BillingLaws

  // ---------------------------------------------------------------- one step, seen from one row

  /** A subscription that was opened and decided: no payment can start it any more. */
  ghost predicate Settled(s: State, id: Id) {
    && id in s.subscriptions && s.subscriptions[id].status != Awaiting
    && forall payment :: payment in s.payments && s.payments[payment].target == ForSubscription(id) ==>
         s.payments[payment].status == Succeeded
  }

  lemma LiveIsSettled(s: State, id: Id)
    requires Inv(s) && id in s.subscriptions && IsLive(s.subscriptions[id].status)
    ensures Settled(s, id)
  {
    forall payment | payment in s.payments && s.payments[payment].target == ForSubscription(id)
      ensures s.payments[payment].status == Succeeded
    {
      assert PaymentAgrees(s.subscriptions, s.payments[payment]);
    }
  }

  /** The row lives on only if it lived, and its period moves only for a free plan whose end nobody asked for. */
  ghost predicate LivesOn(plans: map<string, Plan>, was: Subscription, now: Subscription) {
    IsLive(now.status) ==>
      && IsLive(was.status) && now.plan == was.plan
      && (was.cancelAtPeriodEnd ==> now.cancelAtPeriodEnd)
      && (!GoesOn(plans, was) ==> now.periodStart == was.periodStart && now.periodEnd == was.periodEnd)
  }

  ghost predicate Follows(s: State, t: State, id: Id)
    requires id in s.subscriptions
  {
    Settled(t, id) && LivesOn(s.plans, s.subscriptions[id], t.subscriptions[id])
  }

  /** Taking a payment leaves the subscriptions, and adds at most one payment, for its target. */
  ghost predicate Takes(s: State, t: State, target: Target) {
    && t.subscriptions == s.subscriptions && t.plans == s.plans
    && forall payment :: payment in t.payments ==>
         (payment in s.payments && t.payments[payment] == s.payments[payment]) || t.payments[payment].target == target
  }

  lemma IntakeTakes(s: State, tenant: Id, money: Money, target: Target, provider: Provider, key: IdempotencyKey,
                    newId: Id, checkout: Option<string>)
    requires CreatePayment(s, tenant, money, target, provider, key, newId, checkout).Ok?
    ensures Takes(s, CreatePayment(s, tenant, money, target, provider, key, newId, checkout).value.0, target)
  {
  }

  /** A start opens a checkout for a subscription that is awaiting or new. */
  lemma StartFollows(s: State, tenant: Id, plan: string, provider: Provider, newSubscription: Id, newPayment: Id,
                     checkout: Option<string>, now: Moment, id: Id)
    requires Settled(s, id)
    requires StartSubscription(s, tenant, plan, provider, newSubscription, newPayment, checkout, now).Ok?
    ensures Follows(s, StartSubscription(s, tenant, plan, provider, newSubscription, newPayment, checkout, now).value.0,
                    id)
  {
    var sub, mid := newSubscription, s;
    var waiting := AwaitingOf(s.subscriptions, tenant);
    if waiting.Some? {
      sub := waiting.value;
    } else {
      var newRow := NewSubscription(s.plans[plan], tenant, plan, Awaiting, now);
      mid := s.(subscriptions := s.subscriptions[newSubscription := newRow]);
    }
    var row := mid.subscriptions[sub];
    IntakeTakes(mid, row.tenant, Money(row.price, row.currency), ForSubscription(sub), provider, SubscriptionKey(sub),
                newPayment, checkout);
  }

  lemma OpeningFollows(s: State, step: Step, id: Id)
    requires Inv(s) && Opens(step) && Settled(s, id)
    ensures Follows(s, Apply(s, step), id)
  {
    match step
    case TakePayment(tenant, money, purpose, reference, provider, key, newPayment, checkout) =>
      var target := ForCaller(purpose, reference);
      if CreatePayment(s, tenant, money, target, provider, CallerKey(key), newPayment, checkout).Ok? {
        IntakeTakes(s, tenant, money, target, provider, CallerKey(key), newPayment, checkout);
      }
    case Start(tenant, plan, provider, newSubscription, newPayment, checkout, now) =>
      if StartSubscription(s, tenant, plan, provider, newSubscription, newPayment, checkout, now).Ok? {
        StartFollows(s, tenant, plan, provider, newSubscription, newPayment, checkout, now, id);
      }
  }

  lemma ClosedFollows(s: State, payment: Id, target: PaymentStatus, reason: Option<string>, now: Moment, id: Id)
    requires Inv(s) && payment in s.payments && IsClosing(target) && Settled(s, id)
    requires ClosePayment(s, payment, target, reason, now).Ok?
    ensures Follows(s, ClosePayment(s, payment, target, reason, now).value, id)
  {
    ClosingExactly(s, payment, target, reason, now);
  }

  lemma ClosingFollows(s: State, step: Step, id: Id)
    requires Inv(s) && Moves(step) && !step.Receive? && Settled(s, id)
    ensures Follows(s, Apply(s, step), id)
  {
    match step
    case CancelOpen(tenant, payment, now) =>
      if CancelPayment(s, tenant, payment, now).Ok? {
        ClosedFollows(s, payment, Canceled, None, now, id);
      }
    case Fail(payment, reason, now) =>
      if payment in s.payments && ClosePayment(s, payment, Failed, Some(reason), now).Ok? {
        ClosedFollows(s, payment, Failed, Some(reason), now, id);
      }
    case ExpireSwept(payment, now) =>
      if payment in s.payments && IsOpen(s.payments[payment].status) {
        ClosingExactly(s, payment, Expired, None, now);
        ClosedFollows(s, payment, Expired, None, now, id);
      }
  }

  lemma BoughtFollows(s: State, payment: Id, now: Moment, t: State, id: Id)
    requires Settled(s, id) && payment in s.payments && s.payments[payment].status != Succeeded
    requires Pays(s, payment, now, t)
    requires match s.payments[payment].target
             case ForCaller(_, _) => t.subscriptions == s.subscriptions
             case ForSubscription(sub) => sub in s.subscriptions && Replaces(s.subscriptions, t.subscriptions, sub, now)
    ensures Follows(s, t, id)
  {
  }

  lemma SucceededFollows(s: State, payment: Id, now: Moment, id: Id)
    requires Inv(s) && payment in s.payments && Settled(s, id) && MarkSucceeded(s, payment, now).Ok?
    ensures Follows(s, MarkSucceeded(s, payment, now).value, id)
  {
    SuccessExactly(s, payment, now);
    if s.payments[payment].target.ForSubscription? {
      CheckoutBuys(s, payment, now);
    }
    BoughtFollows(s, payment, now, MarkSucceeded(s, payment, now).value, id);
  }

  lemma ActionFollows(s: State, payment: Id, c: Callback, now: Moment, id: Id)
    requires Inv(s) && payment in s.payments && Settled(s, id) && ApplyAction(s, payment, c, now).Ok?
    ensures Follows(s, ApplyAction(s, payment, c, now).value, id)
  {
    match c.action
    case Create =>
    case Confirm => SucceededFollows(s, payment, now, id);
    case Cancel => ClosedFollows(s, payment, Canceled, c.reason, now, id);
  }

  /** The two tables are as the action on that payment leaves them. */
  ghost predicate ActsOn(s: State, payment: Id, c: Callback, now: Moment, t: State) {
    && payment in s.payments && ApplyAction(s, payment, c, now).Ok?
    && t.payments == ApplyAction(s, payment, c, now).value.payments
    && t.subscriptions == ApplyAction(s, payment, c, now).value.subscriptions
  }

  predicate SameRows(s: State, t: State) {
    t.payments == s.payments && t.subscriptions == s.subscriptions
  }

  lemma DispatchedRows(s: State, r: Request, c: Callback, digest: string, now: Moment)
    ensures var t := StateAfter(s, Dispatch(s, r, c, digest, now));
            SameRows(s, t) || (FindPayment(s, c).Some? && ActsOn(s, FindPayment(s, c).value, c, now, t))
  {
  }

  lemma ReceivedFollows(s: State, r: Request, digest: string, now: Moment, id: Id)
    requires Inv(s) && Settled(s, id)
    ensures Follows(s, StateAfter(s, Deliver(s, r, digest, now)), id)
  {
    if RequestProvider(r) in s.providers && Parse(r).Recognised? {
      var c := Parse(r).callback;
      DispatchedRows(s, r, c, digest, now);
      DispatchedFollows(s, c, now, StateAfter(s, Dispatch(s, r, c, digest, now)), id);
    }
  }

  lemma DispatchedFollows(s: State, c: Callback, now: Moment, t: State, id: Id)
    requires Inv(s) && Settled(s, id)
    requires SameRows(s, t) || (FindPayment(s, c).Some? && ActsOn(s, FindPayment(s, c).value, c, now, t))
    ensures Follows(s, t, id)
  {
    if !SameRows(s, t) {
      ActionFollows(s, FindPayment(s, c).value, c, now, id);
    }
  }

  lemma EndSweptFollows(s: State, tenant: Id, due: Id, fallback: Option<string>, newId: Id, now: Moment, id: Id)
    requires Inv(s) && Settled(s, id) && CloseEndedPeriod(s, tenant, due, fallback, newId, now).Ok?
    ensures Follows(s, CloseEndedPeriod(s, tenant, due, fallback, newId, now).value.0, id)
  {
    if PeriodDue(s, tenant, due, now) {
      PeriodEndExactly(s, tenant, due, fallback, newId, now);
      if !GoesOn(s.plans, s.subscriptions[due]) {
        EndingFallsBack(s, tenant, due, fallback, newId, now);
      }
    }
  }

  lemma CancelFollows(s: State, tenant: Id, now: Moment, id: Id)
    requires Inv(s) && Settled(s, id)
    ensures Follows(s, Apply(s, CancelPlan(tenant, now)), id)
  {
    CancelMarks(s, tenant, now);
  }

  lemma AutoStartFollows(s: State, tenant: Id, plan: string, newId: Id, now: Moment, id: Id)
    requires Settled(s, id)
    ensures Follows(s, Apply(s, AutoStart(tenant, plan, newId, now)), id)
  {
    AutoStartExactly(s, tenant, plan, newId, now);
  }

  lemma PlanStepFollows(s: State, step: Step, id: Id)
    requires Inv(s) && !Opens(step) && !Moves(step) && Settled(s, id)
    ensures Follows(s, Apply(s, step), id)
  {
    match step
    case CancelPlan(tenant, now) => CancelFollows(s, tenant, now, id);
    case AutoStart(tenant, plan, newSubscription, now) => AutoStartFollows(s, tenant, plan, newSubscription, now, id);
    case EndSwept(tenant, subscription, fallback, newSubscription, now) =>
      if CloseEndedPeriod(s, tenant, subscription, fallback, newSubscription, now).Ok? {
        EndSweptFollows(s, tenant, subscription, fallback, newSubscription, now, id);
      }
    case Catalogue(_, _) =>
  }

  lemma StepFollows(s: State, step: Step, id: Id)
    requires Inv(s) && Settled(s, id)
    ensures Follows(s, Apply(s, step), id)
  {
    if Opens(step) {
      OpeningFollows(s, step, id);
    } else if step.Receive? {
      ReceivedFollows(s, step.request, step.digest, step.now, id);
    } else if Moves(step) {
      ClosingFollows(s, step, id);
    } else {
      PlanStepFollows(s, step, id);
    }
  }

  // ---------------------------------------------------------------- over whole runs

  /**
   Whatever follows a cancellation, the subscription never runs past the period it was canceled
   in: while it lives it stays marked and its period stays the same.
   */
  lemma {:induction false} CancellationHolds(s: State, id: Id, steps: seq<Step>)
    requires Inv(s) && id in s.subscriptions && IsLive(s.subscriptions[id].status)
    requires s.subscriptions[id].cancelAtPeriodEnd
    ensures var u := Run(s, steps);
            && Settled(u, id)
            && (IsLive(u.subscriptions[id].status) ==>
                  && u.subscriptions[id].cancelAtPeriodEnd
                  && u.subscriptions[id].periodEnd == s.subscriptions[id].periodEnd)
  {
    if steps == [] {
      LiveIsSettled(s, id);
    } else {
      CancellationHolds(s, id, steps[..|steps| - 1]);
      RunKeeps(s, steps[..|steps| - 1]);
      StepFollows(Run(s, steps[..|steps| - 1]), steps[|steps| - 1], id);
    }
  }

  /** The plan costs something, or is gone, in every state of the run. */
  ghost predicate AlwaysPriced(s: State, steps: seq<Step>, plan: string) {
    forall k :: 0 <= k <= |steps| ==> Priced(Run(s, steps[..k]).plans, plan)
  }

  predicate Priced(plans: map<string, Plan>, plan: string) {
    plan in plans ==> plans[plan].price > 0
  }

  /** While its plan is priced, no run extends the period of a live subscription: a renewal is a new one, and paid. */
  lemma {:induction false} PeriodIsNotExtended(s: State, id: Id, steps: seq<Step>)
    requires Inv(s) && id in s.subscriptions && IsLive(s.subscriptions[id].status)
    requires AlwaysPriced(s, steps, s.subscriptions[id].plan)
    ensures var u := Run(s, steps);
            && Settled(u, id)
            && (IsLive(u.subscriptions[id].status) ==>
                  && u.subscriptions[id].plan == s.subscriptions[id].plan
                  && u.subscriptions[id].periodEnd == s.subscriptions[id].periodEnd)
  {
    if steps == [] {
      LiveIsSettled(s, id);
    } else {
      var rest := steps[..|steps| - 1];
      forall k | 0 <= k <= |rest| ensures Priced(Run(s, rest[..k]).plans, s.subscriptions[id].plan) {
        assert rest[..k] == steps[..k];
      }
      assert rest[..|rest|] == rest;
      PeriodIsNotExtended(s, id, rest);
      RunKeeps(s, rest);
      StepFollows(Run(s, rest), steps[|steps| - 1], id);
    }
  }

  // ---------------------------------------------------------------- nobody has a priced plan for free

  /** Every subscription with a price came with a checkout. */
  ghost predicate PricedHaveCheckouts(s: State) {
    forall id :: id in s.subscriptions && s.subscriptions[id].price > 0 ==> HasCheckout(s.payments, id)
  }

  ghost predicate NewcomersFit(s: State, t: State) {
    forall id :: id in t.subscriptions && id !in s.subscriptions && t.subscriptions[id].price > 0 ==>
      HasCheckout(t.payments, id)
  }

  lemma OpeningFits(s: State, step: Step)
    requires Opens(step)
    ensures NewcomersFit(s, Apply(s, step))
  {
    if step.Start? && StartSubscription(s, step.tenant, step.plan, step.provider, step.newSubscription,
                                        step.newPayment, step.checkout, step.now).Ok? {
      StartFits(s, step.tenant, step.plan, step.provider, step.newSubscription, step.newPayment, step.checkout,
                step.now);
    }
  }

  lemma StartFits(s: State, tenant: Id, plan: string, provider: Provider, newSubscription: Id, newPayment: Id,
                  checkout: Option<string>, now: Moment)
    requires StartSubscription(s, tenant, plan, provider, newSubscription, newPayment, checkout, now).Ok?
    ensures var t := StartSubscription(s, tenant, plan, provider, newSubscription, newPayment, checkout, now).value.0;
            NewcomersFit(s, t)
  {
    if AwaitingOf(s.subscriptions, tenant).None? {
      var row := NewSubscription(s.plans[plan], tenant, plan, Awaiting, now);
      CheckoutFits(s, s.(subscriptions := s.subscriptions[newSubscription := row]), newSubscription, provider,
                   newPayment, checkout);
    }
  }

  lemma CheckoutFits(s: State, mid: State, sub: Id, provider: Provider, newPayment: Id, checkout: Option<string>)
    requires OnlySubscription(s.subscriptions, mid.subscriptions, sub)
    requires CheckoutFor(mid, sub, provider, newPayment, checkout).Ok?
    ensures NewcomersFit(s, CheckoutFor(mid, sub, provider, newPayment, checkout).value.0)
  {
    var (t, answer) := CheckoutFor(mid, sub, provider, newPayment, checkout).value;
    assert answer.payment in t.payments && t.payments[answer.payment].target == ForSubscription(sub);
  }

  lemma PlanStepFits(s: State, step: Step)
    requires Inv(s) && !Opens(step) && !Moves(step)
    ensures NewcomersFit(s, Apply(s, step))
  {
    match step
    case CancelPlan(tenant, now) =>
    case AutoStart(tenant, plan, newSubscription, now) => AutoStartExactly(s, tenant, plan, newSubscription, now);
    case EndSwept(tenant, subscription, fallback, newSubscription, now) =>
      if CloseEndedPeriod(s, tenant, subscription, fallback, newSubscription, now).Ok? {
        EndSweptFits(s, tenant, subscription, fallback, newSubscription, now);
      }
    case Catalogue(_, _) =>
  }

  lemma EndSweptFits(s: State, tenant: Id, due: Id, fallback: Option<string>, newId: Id, now: Moment)
    requires Inv(s) && CloseEndedPeriod(s, tenant, due, fallback, newId, now).Ok?
    ensures NewcomersFit(s, CloseEndedPeriod(s, tenant, due, fallback, newId, now).value.0)
  {
    if PeriodDue(s, tenant, due, now) {
      PeriodEndExactly(s, tenant, due, fallback, newId, now);
      if !GoesOn(s.plans, s.subscriptions[due]) {
        EndingFallsBack(s, tenant, due, fallback, newId, now);
      }
    }
  }

  /** Steps that move a payment bring no subscription. */
  lemma MovingBringsNone(s: State, step: Step)
    requires Moves(step)
    ensures Apply(s, step).subscriptions.Keys == s.subscriptions.Keys
  {
    if step.Receive? {
      CallbackStaysInTenant(s, step.request, step.digest, step.now);
    }
  }

  lemma StepFits(s: State, step: Step)
    requires Inv(s) && PricedHaveCheckouts(s)
    ensures PricedHaveCheckouts(Apply(s, step))
  {
    if Opens(step) {
      OpeningFits(s, step);
    } else if Moves(step) {
      MovingBringsNone(s, step);
    } else {
      PlanStepFits(s, step);
    }
    ApplyKeeps(s, step);
    FitsOn(s, Apply(s, step));
  }

  lemma FitsOn(s: State, t: State)
    requires PricedHaveCheckouts(s) && NewcomersFit(s, t) && Evolves(s, t)
    ensures PricedHaveCheckouts(t)
  {
    forall id | id in t.subscriptions && t.subscriptions[id].price > 0 ensures HasCheckout(t.payments, id) {
      if id in s.subscriptions {
        HasCheckoutAdvances(s.payments, t.payments, id);
      }
    }
  }

  lemma {:induction false} RunFits(s: State, steps: seq<Step>)
    requires Inv(s) && PricedHaveCheckouts(s)
    ensures PricedHaveCheckouts(Run(s, steps))
  {
    if steps != [] {
      RunFits(s, steps[..|steps| - 1]);
      RunKeeps(s, steps[..|steps| - 1]);
      StepFits(Run(s, steps[..|steps| - 1]), steps[|steps| - 1]);
    }
  }

  /** In every reachable state, whoever has a subscription with a price has paid that price for it. */
  lemma PricedIsPaid(plans: map<string, Plan>, providers: set<Provider>, steps: seq<Step>, id: Id)
    returns (payment: Id)
    requires var s := Run(Empty(plans, providers), steps);
             id in s.subscriptions && IsLive(s.subscriptions[id].status) && s.subscriptions[id].price > 0
    ensures var s := Run(Empty(plans, providers), steps);
            && payment in s.payments
            && var p, sub := s.payments[payment], s.subscriptions[id];
               && p.target == ForSubscription(id) && p.tenant == sub.tenant
               && p.status == Succeeded && p.paidAt.Some? && p.money == Money(sub.price, sub.currency)
  {
    EmptyKeeps(plans, providers);
    RunKeeps(Empty(plans, providers), steps);
    RunFits(Empty(plans, providers), steps);
    var s := Run(Empty(plans, providers), steps);
    assert HasCheckout(s.payments, id);
    payment :| payment in s.payments && s.payments[payment].target == ForSubscription(id);
    assert PaymentAgrees(s.subscriptions, s.payments[payment]) && StampsAgree(s.payments[payment]);
  }
}
