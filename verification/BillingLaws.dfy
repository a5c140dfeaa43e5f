/**
 What each billing operation means to the people it concerns: who is charged what, which period is
 bought, what ends and what stays. The laws speak of rows, the catalogue and the clock only.
 */
module BillingLaws {
  import opened Base
  import opened Calendar
  import opened Billing
  import opened BillingInvariant
  import opened BillingRuns

  // ---------------------------------------------------------------- periods

  /** A month is 28 to 31 days, a year 365 or 366; the time of day stays. */
  ghost predicate LastsOne(period: Period, start: Moment, end: Moment) {
    && end == PeriodEnd(start, period)
    && exists days :: Instant(end) == Instant(start) + days * MICROS_PER_DAY
                      && if period == Month then 28 <= days <= 31 else 365 <= days <= 366
  }

  lemma PeriodLasts(start: Moment, period: Period)
    ensures LastsOne(period, start, PeriodEnd(start, period))
  {
    PeriodLength(start, period);
  }

  /** Rows other than `id` are as they were. */
  ghost predicate OnlySubscription(subs: Subscriptions, next: Subscriptions, id: Id) {
    id in next && next == subs[id := next[id]]
  }

  ghost predicate OnlyPayment(payments: Payments, next: Payments, id: Id) {
    id in next && next == payments[id := next[id]]
  }

  // ---------------------------------------------------------------- taking a payment

  /** A new payment: nothing has happened to it yet. */
  predicate IsNewPayment(p: Payment, tenant: Id, money: Money, target: Target, provider: Provider, url: string) {
    && p.tenant == tenant && p.money == money && p.target == target && p.provider == provider
    && p.checkoutUrl == url && p.status == Created
    && p.txnId.None? && p.failureCode.None? && p.pendingAt.None? && p.paidAt.None? && p.closedAt.None?
  }

  /** The answer to a request that the provider and the amount do not rule out. */
  ghost predicate Answers(s: State, tenant: Id, money: Money, target: Target, provider: Provider, key: IdempotencyKey,
                          newId: Id, checkout: Option<string>, r: Outcome<(State, Checkout)>) {
    && (forall id :: KeyRow(s.payments, tenant, key, id) ==>
          var p := s.payments[id];
          r == if p.money == money && p.target == target && p.provider == provider
               then Ok((s, Checkout(id, provider, p.checkoutUrl))) else Err(Conflict))
    && ((forall id :: !KeyRow(s.payments, tenant, key, id)) ==>
          && (r.Ok? <==> newId !in s.payments && checkout.Some?)
          && (r.Err? ==> r.error == if newId in s.payments then IntegrityFailure else ProviderFailure)
          && (r.Ok? ==>
                var (t, answer) := r.value;
                && answer == Checkout(newId, provider, checkout.value)
                && t == s.(payments := t.payments, events := s.events + [PaymentCreated(newId, target)])
                && OnlyPayment(s.payments, t.payments, newId) && t.payments[newId].key == key
                && IsNewPayment(t.payments[newId], tenant, money, target, provider, checkout.value)))
  }

  /** A payment is taken once per key; the same request is answered again, another one conflicts. */
  lemma IntakeExactly(s: State, tenant: Id, money: Money, target: Target, provider: Provider, key: IdempotencyKey,
                      newId: Id, checkout: Option<string>)
    requires UniqueKeys(s.payments)
    ensures var r := CreatePayment(s, tenant, money, target, provider, key, newId, checkout);
            && (r == Err(NotFound) <==> provider !in s.providers)
            && (r == Err(InvariantViolation) <==> provider in s.providers && money.amount <= 0)
            && (provider in s.providers && money.amount > 0 ==>
                  Answers(s, tenant, money, target, provider, key, newId, checkout, r))
  {
  }

  /** A caller's payment taken again after any other steps: the same checkout, or a conflict. */
  lemma RepeatedPayment(s: State, take: Step, steps: seq<Step>, again: Step)
    requires Inv(s) && take.TakePayment? && again.TakePayment?
    requires again.tenant == take.tenant && again.key == take.key && again.money.amount > 0
    requires Taking(s, take).Ok? && again.provider in Run(Taking(s, take).value.0, steps).providers
    ensures var (t, answer) := Taking(s, take).value;
            var u := Run(t, steps);
            Taking(u, again) == if again.money == take.money && again.purpose == take.purpose
                                   && again.reference == take.reference && again.provider == take.provider
                                then Ok((u, answer)) else Err(Conflict)
  {
    var (t, answer) := Taking(s, take).value;
    TakenIsStored(s, take);
    ApplyKeeps(s, take);
    RunKeeps(t, steps);
    StoredAnswers(t, Run(t, steps), take, answer, again);
  }

  ghost function Taking(s: State, take: Step): Outcome<(State, Checkout)>
    requires take.TakePayment?
  {
    CreatePayment(s, take.tenant, take.money, ForCaller(take.purpose, take.reference), take.provider,
                  CallerKey(take.key), take.newPayment, take.checkout)
  }

  /** The payment that a caller's request left, and what was answered. */
  ghost predicate Stored(t: State, take: Step, answer: Checkout)
    requires take.TakePayment?
  {
    && KeyRow(t.payments, take.tenant, CallerKey(take.key), answer.payment)
    && var p := t.payments[answer.payment];
       && p.money == take.money && p.target == ForCaller(take.purpose, take.reference) && p.provider == take.provider
       && answer == Checkout(answer.payment, take.provider, p.checkoutUrl)
  }

  lemma TakenIsStored(s: State, take: Step)
    requires UniqueKeys(s.payments) && take.TakePayment? && Taking(s, take).Ok?
    ensures Stored(Taking(s, take).value.0, take, Taking(s, take).value.1)
    ensures Apply(s, take) == Taking(s, take).value.0
  {
  }

  lemma StoredAnswers(t: State, u: State, take: Step, answer: Checkout, again: Step)
    requires take.TakePayment? && Stored(t, take, answer) && Evolves(t, u) && UniqueKeys(u.payments)
    requires again.TakePayment? && again.tenant == take.tenant && again.key == take.key
    requires again.money.amount > 0 && again.provider in u.providers
    ensures Taking(u, again) == if again.money == take.money && again.purpose == take.purpose
                                   && again.reference == take.reference && again.provider == take.provider
                                then Ok((u, answer)) else Err(Conflict)
  {
    var id := answer.payment;
    assert Advances(t.payments[id], u.payments[id]);
    assert KeyRow(u.payments, take.tenant, CallerKey(take.key), id);
    assert ByKey(u.payments, take.tenant, CallerKey(take.key)) == Some(id);
  }

  // ---------------------------------------------------------------- starting a subscription

  /** A subscription as it is opened: the plan's price, and one period of the plan from now. */
  ghost predicate IsNewSubscription(sub: Subscription, p: Plan, tenant: Id, plan: string, now: Moment) {
    && sub.tenant == tenant && sub.plan == plan && sub.price == p.price && sub.currency == p.currency
    && sub.periodStart == now && LastsOne(p.period, now, sub.periodEnd)
    && !sub.cancelAtPeriodEnd && sub.canceledAt.None?
  }

  lemma NewIsNew(p: Plan, tenant: Id, plan: string, status: SubscriptionStatus, now: Moment)
    ensures var sub := NewSubscription(p, tenant, plan, status, now);
            sub.status == status && IsNewSubscription(sub, p, tenant, plan, now)
  {
    PeriodLasts(now, p.period);
  }

  /** The checkout that a start opens: the plan's own price is charged for the plan's own period. */
  ghost predicate OpensCheckout(s: State, tenant: Id, plan: string, provider: Provider, sub: Id, payment: Id,
                                url: string, now: Moment, t: State)
    requires plan in s.plans
  {
    && t == s.(payments := t.payments, subscriptions := t.subscriptions,
               events := s.events + [PaymentCreated(payment, ForSubscription(sub))])
    && OnlyPayment(s.payments, t.payments, payment)
    && IsNewPayment(t.payments[payment], tenant, Money(s.plans[plan].price, s.plans[plan].currency),
                    ForSubscription(sub), provider, url)
    && OnlySubscription(s.subscriptions, t.subscriptions, sub) && t.subscriptions[sub].status == Awaiting
    && IsNewSubscription(t.subscriptions[sub], s.plans[plan], tenant, plan, now)
  }

  /** Nobody uses the key of a subscription that does not exist. */
  lemma KeyIsFree(s: State, tenant: Id, sub: Id)
    requires AllAgree(s.subscriptions, s.payments) && sub !in s.subscriptions
    ensures forall id :: !KeyRow(s.payments, tenant, SubscriptionKey(sub), id)
  {
    forall id | id in s.payments ensures !KeyRow(s.payments, tenant, SubscriptionKey(sub), id) {
      assert PaymentAgrees(s.subscriptions, s.payments[id]);
    }
  }

  /** Which start goes wrong, and how. */
  ghost predicate StartFails(s: State, plan: string, provider: Provider, newSubscription: Id, newPayment: Id,
                             checkout: Option<string>, error: Error) {
    if plan !in s.plans || !s.plans[plan].isActive then error == NotFound
    else if s.plans[plan].price == 0 then error == InvariantViolation
    else if newSubscription in s.subscriptions then error == IntegrityFailure
    else if provider !in s.providers then error == NotFound
    else if newPayment in s.payments then error == IntegrityFailure
    else checkout.None? && error == ProviderFailure
  }

  /** A tenant without a pending subscription that starts a plan on offer is charged the plan's price. */
  lemma StartCharges(s: State, tenant: Id, plan: string, provider: Provider, newSubscription: Id, newPayment: Id,
                     checkout: Option<string>, now: Moment)
    requires Inv(s) && forall id :: !AwaitingRow(s.subscriptions, tenant, id)
    ensures var r := StartSubscription(s, tenant, plan, provider, newSubscription, newPayment, checkout, now);
            && (r.Ok? <==> plan in s.plans && s.plans[plan].isActive && s.plans[plan].price > 0
                           && provider in s.providers && checkout.Some?
                           && newSubscription !in s.subscriptions && newPayment !in s.payments)
            && (r.Err? ==> StartFails(s, plan, provider, newSubscription, newPayment, checkout, r.error))
            && (r.Ok? ==> r.value.1 == Checkout(newPayment, provider, checkout.value)
                          && OpensCheckout(s, tenant, plan, provider, newSubscription, newPayment, checkout.value, now,
                                           r.value.0))
  {
    if PlanOffered(s, plan) && s.plans[plan].price > 0 && newSubscription !in s.subscriptions {
      NewIsNew(s.plans[plan], tenant, plan, Awaiting, now);
      KeyIsFree(s, tenant, newSubscription);
      var row := NewSubscription(s.plans[plan], tenant, plan, Awaiting, now);
      var mid := s.(subscriptions := s.subscriptions[newSubscription := row]);
      IntakeExactly(mid, tenant, Money(row.price, row.currency), ForSubscription(newSubscription), provider,
                    SubscriptionKey(newSubscription), newPayment, checkout);
    }
  }

  // ---------------------------------------------------------------- a transaction is opened

  /** Only a new payment is opened, for a transaction no other payment of the provider has. */
  lemma OpeningExactly(s: State, id: Id, txn: string, now: Moment)
    requires id in s.payments
    ensures var r, p := MarkPending(s, id, txn, now), s.payments[id];
            var taken := exists other :: other != id && TxnRow(s.payments, p.provider, txn, other);
            && (r == Err(InvariantViolation) <==> p.status != Created)
            && (r == Err(IntegrityFailure) <==> p.status == Created && taken)
            && (r.Ok? <==> p.status == Created && !taken)
            && (r.Ok? ==> r.value == s.(payments := s.payments[id := r.value.payments[id]]))
            && (r.Ok? ==> r.value.payments[id] == p.(status := Pending, txnId := Some(txn), pendingAt := Some(now)))
  {
  }

  // ---------------------------------------------------------------- a payment succeeds

  /** The live subscription that continues into the new period: same plan, not over yet. */
  predicate Continues(subs: Subscriptions, tenant: Id, plan: string, prior: Id, now: Moment) {
    LiveRow(subs, tenant, prior) && subs[prior].plan == plan && Instant(now) < Instant(subs[prior].periodEnd)
  }

  /** The subscription `sub` once it is paid for. */
  ghost predicate Buys(plans: map<string, Plan>, subs: Subscriptions, sub: Id, now: Moment, bought: Subscription)
    requires sub in subs
  {
    var was := subs[sub];
    && bought == was.(status := Active, cancelAtPeriodEnd := false, periodStart := bought.periodStart,
                      periodEnd := bought.periodEnd)
    && (forall prior :: Continues(subs, was.tenant, was.plan, prior, now) ==>
          bought.periodStart == subs[prior].periodEnd)
    && ((forall prior :: !Continues(subs, was.tenant, was.plan, prior, now)) ==> bought.periodStart == now)
    && LastsOne(if was.plan in plans then plans[was.plan].period else Month, bought.periodStart, bought.periodEnd)
  }

  /** The tenant's other live subscription, if there is one, is withdrawn now. */
  ghost predicate Replaces(subs: Subscriptions, next: Subscriptions, sub: Id, now: Moment)
    requires sub in subs
  {
    && next.Keys == subs.Keys
    && forall other :: other in subs && other != sub ==>
         next[other] == if LiveRow(subs, subs[sub].tenant, other)
                        then subs[other].(status := Withdrawn, canceledAt := Some(now)) else subs[other]
  }

  /** Announced in turn: the replacement, the activation with its end, the success. */
  ghost predicate Announces(subs: Subscriptions, sub: Id, end: Moment, told: seq<Event>)
    requires sub in subs
  {
    var done := SubscriptionActivated(sub, subs[sub].plan, end);
    && (forall prior :: LiveRow(subs, subs[sub].tenant, prior) ==> told == [SubscriptionReplaced(prior, sub), done])
    && ((forall prior :: !LiveRow(subs, subs[sub].tenant, prior)) ==> told == [done])
  }

  /** Whoever is live is the one that is replaced. */
  lemma LiveIsReplaced(subs: Subscriptions, sub: Id, prior: Id)
    requires OneLive(subs) && sub in subs && !IsLive(subs[sub].status) && LiveRow(subs, subs[sub].tenant, prior)
    ensures ReplacedBy(subs, sub) == Some(prior)
  {
  }

  lemma ActivationBuys(plans: map<string, Plan>, subs: Subscriptions, sub: Id, now: Moment)
    requires OneLive(subs) && sub in subs && !IsLive(subs[sub].status)
    ensures Buys(plans, subs, sub, now, ActiveRow(plans, subs, sub, now))
  {
    var row, was := ActiveRow(plans, subs, sub, now), subs[sub];
    PeriodLasts(row.periodStart, PlanPeriod(plans, was.plan));
    forall prior: Id | Continues(subs, was.tenant, was.plan, prior, now)
      ensures row.periodStart == subs[prior].periodEnd
    {
      LiveIsReplaced(subs, sub, prior);
    }
    if ReplacedBy(subs, sub).Some? {
      var prior := ReplacedBy(subs, sub).value;
      assert Continues(subs, was.tenant, was.plan, prior, now) <==>
             subs[prior].plan == was.plan && !Ended(subs[prior].periodEnd, now);
    }
  }

  lemma ActivationAnnounces(plans: map<string, Plan>, subs: Subscriptions, sub: Id, now: Moment)
    requires OneLive(subs) && sub in subs && !IsLive(subs[sub].status)
    ensures Announces(subs, sub, ActiveRow(plans, subs, sub, now).periodEnd, ActivationEvents(plans, subs, sub, now))
  {
    forall prior: Id | LiveRow(subs, subs[sub].tenant, prior) ensures ReplacedBy(subs, sub) == Some(prior) {
      LiveIsReplaced(subs, sub, prior);
    }
  }

  lemma ActivationReplaces(plans: map<string, Plan>, subs: Subscriptions, sub: Id, now: Moment)
    requires OneLive(subs) && sub in subs && !IsLive(subs[sub].status)
    ensures var next := ActivatedTable(plans, subs, sub, now);
            next.Keys == subs.Keys && next[sub] == ActiveRow(plans, subs, sub, now) && Replaces(subs, next, sub, now)
  {
    forall prior: Id | LiveRow(subs, subs[sub].tenant, prior) ensures ReplacedBy(subs, sub) == Some(prior) {
      LiveIsReplaced(subs, sub, prior);
    }
  }

  /** The payment row after a success, and what else is left alone. */
  ghost predicate Pays(s: State, id: Id, now: Moment, t: State)
    requires id in s.payments
  {
    && t == s.(payments := t.payments, subscriptions := t.subscriptions, events := t.events)
    && t.payments == s.payments[id := s.payments[id].(status := Succeeded, paidAt := Some(now))]
  }

  /** A success goes through exactly from created, pending and expired; it is announced, late after expiry. */
  lemma SuccessExactly(s: State, id: Id, now: Moment)
    requires Inv(s) && id in s.payments
    ensures var r, p := MarkSucceeded(s, id, now), s.payments[id];
            && (r.Ok? <==> p.status in {Created, Pending, Expired})
            && (r.Err? ==> r.error == InvariantViolation)
            && (r.Ok? ==> Pays(s, id, now, r.value))
            && (r.Ok? && p.target.ForCaller? ==>
                  && r.value.subscriptions == s.subscriptions
                  && r.value.events == s.events + [PaymentSucceeded(id, p.target, p.status == Expired)])
  {
    SuccessIsHonoured(s, id, now);
  }

  /**
   What a customer gets for a paid checkout: one period of the plan, from the end of the period it
   renews or from now, in place of whatever was live before.
   */
  lemma CheckoutBuys(s: State, id: Id, now: Moment)
    requires Inv(s) && id in s.payments && s.payments[id].target.ForSubscription?
    requires MarkSucceeded(s, id, now).Ok?
    ensures var t, p := MarkSucceeded(s, id, now).value, s.payments[id];
            var sub := p.target.subscription;
            && sub in s.subscriptions && s.subscriptions[sub].tenant == p.tenant
            && Replaces(s.subscriptions, t.subscriptions, sub, now)
            && Buys(s.plans, s.subscriptions, sub, now, t.subscriptions[sub])
            && exists told :: Announces(s.subscriptions, sub, t.subscriptions[sub].periodEnd, told)
                              && t.events == s.events + told + [PaymentSucceeded(id, p.target, p.status == Expired)]
  {
    assert PaymentAgrees(s.subscriptions, s.payments[id]);
    var sub := s.payments[id].target.subscription;
    ActivationBuys(s.plans, s.subscriptions, sub, now);
    ActivationAnnounces(s.plans, s.subscriptions, sub, now);
    ActivationReplaces(s.plans, s.subscriptions, sub, now);
  }

  // ---------------------------------------------------------------- a payment closes

  /** The subscription that a checkout had opened goes with it. */
  ghost predicate Drops(subs: Subscriptions, next: Subscriptions, p: Payment, target: PaymentStatus, now: Moment) {
    match p.target
    case ForCaller(_, _) => next == subs
    case ForSubscription(sub) =>
      && sub in subs && OnlySubscription(subs, next, sub)
      && next[sub] == if target == Expired then subs[sub].(status := Lapsed)
                      else subs[sub].(status := Withdrawn, canceledAt := Some(now))
  }

  /** Only an open payment closes, and its subscription with it; the reason and the time are kept. */
  lemma ClosingExactly(s: State, id: Id, target: PaymentStatus, reason: Option<string>, now: Moment)
    requires Inv(s) && id in s.payments && IsClosing(target)
    ensures var r, p := ClosePayment(s, id, target, reason, now), s.payments[id];
            && (r.Ok? <==> p.status in {Created, Pending})
            && (r.Err? ==> r.error == InvariantViolation)
            && (r.Ok? ==>
                  var t := r.value;
                  && t == s.(payments := t.payments, subscriptions := t.subscriptions,
                             events := s.events + [PaymentClosed(id, p.target, target)])
                  && OnlyPayment(s.payments, t.payments, id)
                  && t.payments[id] == p.(status := target, closedAt := Some(now),
                                          failureCode := t.payments[id].failureCode)
                  && (reason.Some? ==> t.payments[id].failureCode == reason)
                  && (reason.None? ==> t.payments[id].failureCode == p.failureCode)
                  && Drops(s.subscriptions, t.subscriptions, p, target, now))
  {
    assert PaymentAgrees(s.subscriptions, s.payments[id]);
  }

  /** A user cancels payments of the own tenant only. */
  lemma UserCancelsOwn(s: State, tenant: Id, id: Id, now: Moment)
    ensures CancelPayment(s, tenant, id, now) == Err(NotFound) <==> id !in s.payments || s.payments[id].tenant != tenant
    ensures id in s.payments && s.payments[id].tenant == tenant ==>
              CancelPayment(s, tenant, id, now) == ClosePayment(s, id, Canceled, None, now)
  {
  }

  /** The sweep expires a payment that is still open, and leaves every other alone. */
  lemma SweepExpiresOpen(s: State, id: Id, now: Moment)
    requires Inv(s)
    ensures var r := ExpireCheckout(s, id, now);
            && r.Ok?
            && (id !in s.payments || s.payments[id].status !in {Created, Pending} ==> r.value == s)
            && (id in s.payments && s.payments[id].status in {Created, Pending} ==>
                  && OnlyPayment(s.payments, r.value.payments, id)
                  && r.value.payments[id] == s.payments[id].(status := Expired, closedAt := Some(now))
                  && r.value.events == s.events + [PaymentClosed(id, s.payments[id].target, Expired)])
  {
  }

  // ---------------------------------------------------------------- a period ends

  /** A period of the same plan on the old grid that contains now. */
  ghost predicate Rolls(plans: map<string, Plan>, was: Subscription, now: Moment, next: Subscription)
    requires was.plan in plans
  {
    var period := plans[was.plan].period;
    && next == was.(status := Active, periodStart := next.periodStart, periodEnd := next.periodEnd)
    && Instant(next.periodStart) <= Instant(now) < Instant(next.periodEnd)
    && LastsOne(period, next.periodStart, next.periodEnd)
    && exists n :: next.periodStart == Iterate(was.periodEnd, period, n)
  }

  lemma RolledRowRolls(plans: map<string, Plan>, was: Subscription, now: Moment)
    requires was.plan in plans && Ended(was.periodEnd, now)
    ensures Rolls(plans, was, now, RolledRow(plans, was, now))
  {
    var period := plans[was.plan].period;
    RollForwardContainsNow(was.periodStart, was.periodEnd, now, period);
    RollForwardOnGrid(was.periodStart, was.periodEnd, now, period);
    PeriodLasts(RolledRow(plans, was, now).periodStart, period);
  }

  lemma RollForwardOnGrid(start: Moment, end: Moment, now: Moment, period: Period)
    requires Ended(end, now)
    ensures exists n :: RollForward(start, end, now, period).0 == Iterate(end, period, n)
  {
    SkipsWhileEnded(end, now, period);
    var n := PeriodsToSkip(end, now, period);
    assert RollForward(start, end, now, period).0 == Iterate(end, period, n - 1);
  }

  /** A subscription ends: withdrawn if that was asked for, lapsed otherwise. */
  predicate Ends(was: Subscription, now: Moment, next: Subscription) {
    && next == was.(status := if was.cancelAtPeriodEnd then Withdrawn else Lapsed, canceledAt := next.canceledAt)
    && next.canceledAt == if was.cancelAtPeriodEnd && was.canceledAt.None? then Some(now) else was.canceledAt
  }

  /** Only a free plan whose end nobody asked for goes on. */
  predicate GoesOn(plans: map<string, Plan>, sub: Subscription) {
    sub.plan in plans && plans[sub.plan].price == 0 && !sub.cancelAtPeriodEnd
  }

  ghost predicate CanFallBack(s: State, fallback: Option<string>) {
    && fallback.Some? && fallback.value in s.plans
    && s.plans[fallback.value].isActive && s.plans[fallback.value].price == 0
  }

  /** The due row goes on unpaid exactly if its plan is free and its end was not asked for. */
  lemma PeriodEndExactly(s: State, tenant: Id, id: Id, fallback: Option<string>, newId: Id, now: Moment)
    requires Inv(s) && LiveRow(s.subscriptions, tenant, id)
    requires Instant(s.subscriptions[id].periodEnd) <= Instant(now)
    ensures var r, was := CloseEndedPeriod(s, tenant, id, fallback, newId, now), s.subscriptions[id];
            && (r.Err? <==> !GoesOn(s.plans, was) && CanFallBack(s, fallback) && newId in s.subscriptions)
            && (r.Err? ==> r.error == IntegrityFailure)
            && (r.Ok? ==>
                  var (t, acted) := r.value;
                  && acted && id in t.subscriptions
                  && (IsLive(t.subscriptions[id].status) <==> GoesOn(s.plans, was))
                  && (GoesOn(s.plans, was) ==>
                        && t == s.(subscriptions := t.subscriptions)
                        && OnlySubscription(s.subscriptions, t.subscriptions, id)
                        && Rolls(s.plans, was, now, t.subscriptions[id]))
                  && (!GoesOn(s.plans, was) ==> Ends(was, now, t.subscriptions[id])))
  {
    EndedFrees(s, tenant, id, now);
    if GoesOn(s.plans, s.subscriptions[id]) {
      RolledRowRolls(s.plans, s.subscriptions[id], now);
    }
  }

  /** A subscription that is not live, not the tenant's or not over is left alone. */
  lemma NotDueIsLeftAlone(s: State, tenant: Id, id: Id, fallback: Option<string>, newId: Id, now: Moment)
    requires !LiveRow(s.subscriptions, tenant, id) || Instant(now) < Instant(s.subscriptions[id].periodEnd)
    ensures CloseEndedPeriod(s, tenant, id, fallback, newId, now) == Ok((s, false))
  {
  }

  lemma EndedFrees(s: State, tenant: Id, id: Id, now: Moment)
    requires OneLive(s.subscriptions) && LiveRow(s.subscriptions, tenant, id)
    ensures forall other :: !LiveRow(EndPeriod(s, id, now).subscriptions, tenant, other)
  {
    var next := EndPeriod(s, id, now).subscriptions;
    assert forall other :: LiveRow(next, tenant, other) ==> LiveRow(s.subscriptions, tenant, other);
  }

  /** A free plan takes the place of what ended, if there is one on offer; the end is announced once. */
  ghost predicate FallsBack(s: State, id: Id, tenant: Id, fallback: Option<string>, newId: Id, now: Moment, t: State)
    requires id in s.subscriptions && id in t.subscriptions
  {
    var ended := SubscriptionEnded(id, s.subscriptions[id].plan, t.subscriptions[id].status);
    && t == s.(subscriptions := t.subscriptions, events := t.events)
    && if !CanFallBack(s, fallback) then
         OnlySubscription(s.subscriptions, t.subscriptions, id) && t.events == s.events + [ended]
       else
         && newId !in s.subscriptions && newId in t.subscriptions
         && t.subscriptions == s.subscriptions[id := t.subscriptions[id]][newId := t.subscriptions[newId]]
         && IsStarted(t.subscriptions[newId], s.plans[fallback.value], tenant, fallback.value, now)
         && t.events == s.events + [ended,
              SubscriptionActivated(newId, fallback.value, t.subscriptions[newId].periodEnd)]
  }

  /** A free subscription as it starts: on trial exactly if the plan has trial days. */
  ghost predicate IsStarted(sub: Subscription, p: Plan, tenant: Id, plan: string, now: Moment) {
    && IsNewSubscription(sub, p, tenant, plan, now)
    && sub.status == if p.trialDays > 0 then Trialing else Active
  }

  lemma EndingFallsBack(s: State, tenant: Id, id: Id, fallback: Option<string>, newId: Id, now: Moment)
    requires Inv(s) && PeriodDue(s, tenant, id, now) && !GoesOn(s.plans, s.subscriptions[id])
    requires CloseEndedPeriod(s, tenant, id, fallback, newId, now).Ok?
    ensures var t := CloseEndedPeriod(s, tenant, id, fallback, newId, now).value.0;
            id in t.subscriptions && FallsBack(s, id, tenant, fallback, newId, now, t)
  {
    EndedFrees(s, tenant, id, now);
    var mid := EndPeriod(s, id, now);
    if fallback.Some? {
      AutoStartExactly(mid, tenant, fallback.value, newId, now);
    }
  }

  // ---------------------------------------------------------------- free plans and cancellation

  /** A tenant without a live subscription is given the free plan; with one nothing happens. */
  lemma AutoStartExactly(s: State, tenant: Id, plan: string, newId: Id, now: Moment)
    ensures var r := AutoSubscribe(s, tenant, plan, newId, now);
            && (r == Err(NotFound) <==> plan !in s.plans || !s.plans[plan].isActive)
            && (r == Err(InvariantViolation) <==> plan in s.plans && s.plans[plan].isActive && s.plans[plan].price != 0)
            && (CanFallBack(s, Some(plan)) && (exists id :: LiveRow(s.subscriptions, tenant, id)) ==> r == Ok(s))
            && (CanFallBack(s, Some(plan)) && (forall id :: !LiveRow(s.subscriptions, tenant, id)) ==>
                  && (r.Err? <==> newId in s.subscriptions)
                  && (r.Err? ==> r.error == IntegrityFailure)
                  && (r.Ok? ==>
                        var t := r.value;
                        && OnlySubscription(s.subscriptions, t.subscriptions, newId)
                        && IsStarted(t.subscriptions[newId], s.plans[plan], tenant, plan, now)
                        && t == s.(subscriptions := t.subscriptions,
                                   events := s.events
                                     + [SubscriptionActivated(newId, plan, t.subscriptions[newId].periodEnd)])))
  {
    if plan in s.plans {
      NewIsNew(s.plans[plan], tenant, plan, if s.plans[plan].trialDays > 0 then Trialing else Active, now);
    }
  }

  /** A cancellation marks the live subscription, which stays live until its period ends. */
  lemma CancelMarks(s: State, tenant: Id, now: Moment)
    requires OneLive(s.subscriptions)
    ensures var r := CancelSubscription(s, tenant, now);
            && (r.Err? <==> forall id :: !LiveRow(s.subscriptions, tenant, id))
            && (r.Err? ==> r.error == NotFound)
            && forall id :: LiveRow(s.subscriptions, tenant, id) ==>
                 var sub := s.subscriptions[id];
                 r == Ok(s.(subscriptions :=
                            s.subscriptions[id := sub.(cancelAtPeriodEnd := true, canceledAt := Some(now))],
                            events := s.events + [SubscriptionCanceled(id, sub.plan)]))
  {
  }
}
