# A verified model of the backend's stateful protocols

This project models the parts of a multi-tenant backend where several actors change shared state
in any order: users, payment providers, cron jobs, queue workers and concurrent requests. Each
database transaction is one atomic step; interleavings are sequences of such steps, and the main
results hold for every sequence. Unique indexes are guards, new ids are parameters, time is a
parameter, and the outcome of a send, a checkout or a signature check is an input.

| file | what it models |
|---|---|
| `Calendar.dfy` | billing periods on the Gregorian calendar, with day clamping |
| `Billing.dfy`, `Numerals.dfy`, `Adapters.dfy`, `Webhooks.dfy` | payments, subscriptions, the two sweeps, provider dialects, texts read as numbers, the callback ledger |
| `BillingInvariant.dfy`, `BillingRuns.dfy`, `BillingTheorems.dfy`, `BillingVouchers.dfy`, `BillingLaws.dfy`, `BillingAccess.dfy`, `BillingProtocol.dfy`, `BillingInquiries.dfy`, `BillingSweeps.dfy` | what every run of billing keeps and promises |
| `BillingService.dfy` | the same operations as methods that update tables in place |
| `Orders.dfy`, `OrderRace.dfy`, `Storefront.dfy` | orders that follow payment events, serially and with handlers that overlap; carts, pricing and checkout |
| `EventBus.dfy`, `EventDelivery.dfy` | subscriptions and publication; commit hooks, deduplication and retries |
| `RefreshTokens.dfy`, `RefreshRace.dfy` | refresh-token families, in the sense of section 5.2.2.3 of RFC 6819; rotation against revocation with rows visible at commit |
| `InstallOrder.dfy`, `FeatureChain.dfy` | the feature graph: installation order, requires closure, copying |
| `Outbox.dfy`, `Throttle.dfy`, `Breaker.dfy` | leases, rate limits and lockout, the circuit breaker |
| `Limits.dfy`, `Onboarding.dfy`, `Metering.dfy` | advisory-lock protocols and usage counters |

Where the source updates state, a class has methods whose contracts equate the new state with a
specification function of the old one, and the theorems are about those functions. The Payme
answers follow section 5 of the JSON-RPC 2.0 Specification, and digits are those of the Unicode Standard,
version 15.0.

## What the code does differently from what one would expect

Each of these is stated by a lemma, together with the exact condition under which the expected
law holds.

- Period ends are monotone on dates, and on moments except where clamping makes two days one (`PeriodEndMonotoneExactly`).
- Twelve month steps are not a year step when a shorter February lies in between (`TwelveMonthsAreAYear`).
- A repeated Payme CreateTransaction is answered differently once its transaction is no longer open (`RepeatedDelivery`).
- A request whose amount conversion or digest comparison raises leaves its dialect with an exception (`ParseEscapesExactly`).
- A CheckTransaction raises, now and ever after, once a closed payment's reason looks numeric and is not a number, such as "--5" (`StatusReportIsConsistent`, `ReasonDecidesStatus`).
- Two callbacks without a transaction id share one ledger key with one whose id is the text "None" (`KeyOfCollision`).
- A unit of work that is entered again after a rollback publishes the rolled-back events (`PublishedAreCommittedExactly`, `PublishedQuietlyExactly`).
- A publication that raises loses the rest of its service's queue (`HeardExactly`).
- A duplicate delivery after the retention sweep acts a second time (`EffectsMatchDedupRows`).
- A logout with a rotated token leaves the session alive (`LogoutEndsTheSessionExactly`).
- A refresh that commits while a revocation waits for it keeps the session alive, unless its successor is revoked meanwhile (`RevocationCatchesExactly`).
- A worker that outlives its lease can turn a sent notification back into one to be sent (`SettledForGoodExactly`).
- Copying a feature that is already installed is refused only after its missing requirements were copied (`FeatureChain.Target.AddFeature`).
- A paid order is canceled by an overlapping handler that had read it waiting (`PaidForGoodExactly`).
- A half-open circuit lets every further call through until one of them is reported (`OneProbeExactly`).

## Model

| member | source | states |
|---|---|---|
| Calendar.OrdinalFollowsDates | core/billing/periods.py:7-21 | day numbers order valid dates exactly as year, month, day do, and determine the date |
| Calendar.DaysBeforeYearClosed | core/billing/periods.py:7-21 | the days before a year, leap years included, in closed form: the day numbers that periods and time stamps are measured with |
| Calendar.PeriodLength | core/billing/periods.py:7-21 | a month is 28 to 31 days, a year 365 or 366, and nothing but whole days is added |
| Calendar.PeriodEndIsLater | core/billing/periods.py:7-21 | a period ends at least 28 days after its start |
| Calendar.PeriodEndMonotoneOnDates | core/billing/periods.py:7-21 | an earlier or equal start date never gives a later end date |
| Calendar.PeriodEndMonotoneExactly | core/billing/periods.py:18-21 | on moments, an earlier start ends no later if and only if clamping does not merge the two days in the wrong order of time |
| Calendar.PeriodEndNotMonotone | core/billing/periods.py:20-20 | two moments of 30 and 31 January whose ends are in the opposite order |
| Calendar.MonthStepsShape | core/billing/periods.py:12-21 | where n month steps lead: the month reached, and the day, clamped for good by February |
| Calendar.TwelveMonthsAreAYear | core/billing/periods.py:10-21 | twelve month steps equal one year step if and only if the day fits into the February ahead or the month is February |
| Calendar.PeriodsToSkip | core/billing/service.py:573-581 | the number of turns of the roll-forward loop is the least one after which the period has not ended; it exists for every start |
| Calendar.RollForwardContainsNow | core/billing/service.py:573-581 | the rolled period starts no later than now, ends after now, and is one period long |
| Calendar.RollForwardStep | core/billing/service.py:576-581 | one turn of the loop leaves the final period the same and brings it strictly nearer |
| Adapters.PaymeAmountRoundTrip | core/billing/adapters/payme.py:72-84 | an incoming tiyin amount equals the stored money exactly when it is the tiyin amount the checkout asked for, whatever JSON value arrives |
| Adapters.ParseEscapesExactly | core/billing/adapters/click.py:111-176 | for all three providers and every decoded request: it leaves the dialect if and only if it is known and its amount conversion or its signature comparison raises; it is refused as unrecognised if and only if it is unknown |
| Adapters.ClickAmountNaNEscapes | core/billing/adapters/click.py:62-71 | a form whose NaN amount leaves the adapter as an exception |
| Numerals.TwoDashes | core/billing/adapters/payme.py:102-103 | a text that passes the digit test and whose conversion raises |
| Numerals.ConvertibleLooksNumeric | core/billing/adapters/payme.py:102-103 | every text that converts passes the digit test, so only the converse can fail |
| Adapters.ParsedIsWellFormed | core/billing/adapters/payme.py:143-166 | a parsed callback carries its provider and its signature verdict; checks, creates and non-Payme confirms carry an amount, cancels and status requests never do |
| Adapters.IntTextReads | core/billing/adapters/click.py:126-129 | Click's error code, stored as a text, reads back as that code |
| Adapters.MillisExactly | core/billing/adapters/payme.py:87-88 | a reported time is the whole milliseconds since the epoch, toward zero |
| Adapters.EpochIs1970 | core/billing/adapters/payme.py:87-88 | the epoch is 1 January 1970, and an unset time is reported as zero |
| Adapters.ClickBodyNames | core/billing/adapters/click.py:142-157 | the answer repeats both transaction ids, echoes a prepare id if and only if there is one, and otherwise hands out the payment found |
| Adapters.BuildClickAnswer | core/billing/adapters/click.py:142-169 | the body that is filled field by field is the answer whose codes and ids ClickPrepare, ClickComplete and ClickFailure state; every processed request goes through it |
| Webhooks.FindPayment | core/billing/webhooks.py:318-344 | our reference wins if it names a payment of the provider; otherwise the transaction id decides; nobody is found only if neither names one |
| Webhooks.KeyTextInjective | core/billing/webhooks.py:354-375 | the text form of ledger keys of one provider is injective, rejected deliveries included |
| Webhooks.KeyOfCollision | core/billing/webhooks.py:159-159 | two callbacks share a ledger key if and only if they agree on provider, action and the text of the transaction id, where a missing one reads "None" |
| BillingInvariant.MarkPendingKeeps | core/billing/service.py:252-257 | opening a transaction keeps the invariant and only moves its payment forward |
| BillingInvariant.ClosePaymentKeeps | core/billing/service.py:298-344 | closing a payment and dropping its pending subscription keeps the invariant |
| BillingInvariant.OneCheckout | core/billing/service.py:483-493 | a subscription has one payment at most |
| BillingInvariant.SwapKeeps | core/billing/service.py:346-392 | replacing the live subscription by the paid one keeps both tables in agreement |
| BillingInvariant.MarkSucceededKeeps | core/billing/service.py:259-282 | a success, late or not, keeps the invariant |
| BillingInvariant.SuccessIsHonoured | core/billing/state_machine.py:19-37 | for a payment under the invariant a success goes through if and only if the payment is created, pending or expired |
| BillingInvariant.CreatePaymentKeeps | core/billing/service.py:163-232 | opening or replaying a checkout keeps the invariant |
| BillingInvariant.StartSubscriptionKeeps | core/billing/service.py:451-493 | starting a subscription keeps the invariant |
| BillingInvariant.CancelSubscriptionKeeps | core/billing/service.py:495-511 | canceling at period end keeps the invariant |
| BillingInvariant.AutoSubscribeKeeps | core/billing/service.py:513-544 | subscribing to the free plan keeps the invariant |
| BillingInvariant.CloseEndedPeriodKeeps | core/billing/service.py:546-605 | rolling forward, or ending with a fallback, keeps the invariant |
| BillingRuns.DispatchKeeps | core/billing/webhooks.py:138-164 | a dispatched callback keeps the invariant and only moves tables forward |
| BillingRuns.DeliverKeeps | core/billing/webhooks.py:121-164 | any request, recognised or not, keeps the invariant |
| BillingRuns.ApplyKeeps | core/billing/jobs.py:54-128 | every step of every actor keeps the invariant |
| BillingRuns.RunKeeps | core/billing/jobs.py:54-128 | so does every sequence of steps, and payments only move along the transition table |
| BillingTheorems.ReachableTablesAgree | core/billing/service.py:259-392 | in every reachable state: at most one live and one pending subscription per tenant; a checkout is open exactly while its subscription is pending; expired, failed and canceled checkouts have the matching subscription status; every pending subscription has a checkout |
| BillingTheorems.ReachableHistories | core/billing/service.py:259-313 | the events of a payment are exactly those of its status: at most one closing and one success, both only as expiry followed by a success flagged late |
| BillingTheorems.AnsweredFromLedger | core/billing/webhooks.py:185-267 | an answered state-changing delivery leaves its key in the ledger, and the answer is what replaying that row says |
| BillingTheorems.ReplayIsStable | core/billing/webhooks.py:284-314 | a replay in any later state gives the same body if and only if it is not a create whose transaction has moved on; then it is error -31008 |
| BillingTheorems.RepeatedDelivery | core/billing/webhooks.py:138-314 | while the provider is enabled, delivering a state-changing callback again after any other steps changes nothing and gets the first body, except for a create whose transaction is no longer open |
| BillingTheorems.SameKeyNeverActsAgain | core/billing/webhooks.py:185-209 | no other authenticated request with the same key ever acts |
| BillingTheorems.RepeatedCreateAfterExpiry | core/billing/adapters/payme.py:168-195 | the exception is real: expiry between two creates turns the second into error -31008 |
| BillingTheorems.StatusReportIsConsistent | core/billing/adapters/payme.py:243-278 | a CheckTransaction of a known transaction in any state under the invariant is answered if and only if the payment's reason does not look numeric or converts, and raises otherwise; in the answer the state code tells pending, succeeded and closed apart, a perform time appears only with success, a reason only with closing, and a cancel time beside a success only if the payment had expired first |
| BillingTheorems.PaidSubscriptionIsTheLiveOne | core/billing/service.py:346-392 | after a successful checkout its subscription is the tenant's only live one, its period ends after now and after a same-plan period it replaces, and no other row changes |
| BillingTheorems.PeriodEndLeavesAPlan | core/billing/service.py:546-605 | the period-end step leaves nothing due, and a live unexpired plan if the plan is free or the fallback is a free plan on offer |
| BillingTheorems.StartWhileAwaiting | core/billing/service.py:221-232 | while a checkout is open, starting again returns its payment, or conflicts for another plan or provider |
| BillingTheorems.RepeatedStart | core/billing/service.py:451-493 | a repeated start returns the same payment for as long as it is open, after any other steps, while the plan is on offer at a price and the provider enabled |
| BillingTheorems.CallbackStaysInTenant | core/billing/webhooks.py:318-344 | a callback changes at most the payment it names, of its own provider, and subscriptions of that payment's tenant |
| BillingLaws.IntakeExactly | core/billing/service.py:163-232 | every outcome of taking a payment: the provider, the amount, a stored payment with the key, which is answered again or conflicts, and the new row and its event otherwise |
| BillingLaws.RepeatedPayment | core/billing/service.py:217-232 | a caller's payment taken again after any other steps gets the same checkout if it asks for the same, and conflicts otherwise |
| BillingLaws.StartCharges | core/billing/service.py:451-493 | a tenant without a pending subscription: the start succeeds if and only if plan, price, provider, checkout and ids allow it, with the error otherwise; it charges the plan's price and opens one period of that plan from now |
| BillingLaws.OpeningExactly | core/billing/service.py:252-257 | a transaction is opened only for a new payment and only with an id no other payment of the provider has; the id and the time are stored |
| BillingLaws.SuccessExactly | core/billing/service.py:259-282 | a success goes through if and only if the payment is created, pending or expired; the payment is stamped, and the event says whether it is late |
| BillingLaws.CheckoutBuys | core/billing/service.py:346-392 | a paid checkout buys one period of the plan, from the end of an unexpired period of the same plan that it replaces and from now in every other case; the subscription that was live is withdrawn, every other row stays, and all of it is announced in turn |
| BillingLaws.ClosingExactly | core/billing/service.py:298-344 | a payment closes if and only if it is open; status, reason and time are stored, and its pending subscription lapses on expiry and is withdrawn otherwise |
| BillingLaws.UserCancelsOwn | core/billing/service.py:237-250 | a payment of another tenant is not found |
| BillingLaws.SweepExpiresOpen | core/billing/jobs.py:54-92 | the sweep expires a payment that is still open and leaves every other alone |
| BillingLaws.PeriodEndExactly | core/billing/service.py:546-605 | a subscription whose period is over goes on if and only if its plan is free in the catalogue and no cancellation was requested, then in the period of the old grid that contains now; otherwise it is withdrawn if cancellation was requested and lapses if not |
| BillingLaws.EndingFallsBack | core/billing/service.py:583-605 | the end is announced once, and a free plan on offer takes its place for one period from now, on trial if the plan has trial days |
| BillingLaws.NotDueIsLeftAlone | core/billing/service.py:562-571 | a subscription that is not live, not the tenant's or not over is left alone |
| BillingLaws.AutoStartExactly | core/billing/service.py:513-544 | every outcome of giving a tenant a free plan; a tenant with a live one keeps it |
| BillingLaws.CancelMarks | core/billing/service.py:495-511 | a cancellation marks the tenant's live subscription and nothing else |
| BillingAccess.CancellationHolds | core/billing/service.py:495-605 | in every continuation of a cancellation the subscription stays marked and keeps its period end for as long as it is live |
| BillingAccess.PeriodIsNotExtended | core/billing/service.py:546-605 | in every run in which its plan keeps a price, the period of a live subscription is never extended |
| BillingAccess.PricedIsPaid | core/billing/service.py:259-392 | in every reachable state whoever has a live subscription with a price has paid exactly that price for it |
| BillingVouchers.CallbackVouches | core/billing/webhooks.py:211-282 | a payment that starts to need a voucher in a callback gets one from it: an authenticated message that names this payment and carries its exact amount |
| BillingVouchers.CallbackPays | core/billing/webhooks.py:269-282 | a callback after which a payment has succeeded, and had not before, is an authenticated confirmation that names that payment |
| BillingVouchers.SucceededPaymentsAreVouched | core/billing/webhooks.py:211-282 | for every succeeded payment of every run there is the step that moved it to success: an authenticated confirmation of that very payment; it carries the exact amount, or for Payme an earlier create of the same transaction did, in tiyin |
| BillingProtocol.PaymeCreate | core/billing/adapters/payme.py:143-236 | a first CreateTransaction end to end: -31050, -31001 or -31008 with the tables unchanged, an exception if another payment has the transaction id, or state 1 with the payment pending; the amount is right exactly when the tiyin are a hundred times the sum |
| BillingProtocol.PaymePerform | core/billing/webhooks.py:211-282 | a first PerformTransaction end to end: the success and all it brings, answered with state 2, exactly if the transaction is known and its payment open or expired; otherwise -31003 or -31008 and no change |
| BillingProtocol.PaymeCancel | core/billing/webhooks.py:211-282 | a first CancelTransaction end to end: canceled and answered with state -1 exactly if known and open; a paid one stays paid |
| BillingProtocol.ReasonDecidesStatus | core/billing/adapters/payme.py:99-104 | create, cancel with any reason, then status, in any state: the status request is answered if and only if the reason does not look numeric or converts, and every later one ends the same way |
| BillingProtocol.UnreadableReason | core/billing/adapters/payme.py:99-104 | a reachable state in which the status request of a known transaction raises |
| BillingProtocol.ClickPrepare | core/billing/adapters/click.py:111-169 | a first Prepare end to end: -5, -2 or -4 with the tables unchanged, an exception if another payment has the transaction id, or 0 with the payment pending and our id as prepare id |
| BillingProtocol.ClickComplete | core/billing/adapters/click.py:111-169 | a first Complete end to end: succeeds with 0 exactly if the whole-sum amount is right and the payment open or expired |
| BillingProtocol.ClickFailure | core/billing/adapters/click.py:124-128 | a Complete that reports a failure cancels an open payment with -9, whatever amount it carries |
| BillingProtocol.ClickAmountRoundTrip | core/billing/adapters/click.py:62-71 | the parsed amount equals the stored money exactly when the form's decimal is that whole number of sums |
| BillingProtocol.StripePaid | core/billing/adapters/stripe.py:202-263 | a first paid session end to end: the payment it names succeeds if the amount is right and it is open or expired; everything else is acknowledged without effect |
| BillingProtocol.StripeExpired | core/billing/adapters/stripe.py:244-263 | a first expired session end to end: an open payment it names is canceled; everything else is acknowledged without effect |
| BillingInquiries.PaymeCheck | core/billing/webhooks.py:168-181 | a CheckPerformTransaction end to end: -32504 if forged, -31050 for nobody, -31001 for another amount, -31008 unless the payment is open, and otherwise allowed; nothing changes |
| BillingInquiries.PaymeStatusRefused | core/billing/webhooks.py:168-181 | a CheckTransaction that is forged or about a transaction nobody has: -32504 or -31003; nothing changes |
| BillingInquiries.ForgedIsRefused | core/billing/webhooks.py:354-375 | a forged request of any provider is refused in its dialect; the tables stay and at most its rejection is recorded |
| BillingInquiries.ForgedNeverBlocks | core/billing/webhooks.py:185-209 | a genuine request that would be new is still new after a forged one |
| BillingInquiries.NotAccepted | core/billing/webhooks.py:121-136 | a request of a provider that is not enabled, or that leaves its dialect, is not answered |
| BillingInquiries.StripeUnhandled | core/billing/adapters/stripe.py:244-263 | an event that is not about a session is acknowledged and changes nothing |
| BillingService.Database.constructor | core/billing/service.py:138-154 | an empty database satisfies the invariant |
| BillingService.Database.FindLive | core/billing/service.py:513-520 | the lookup under the unique index finds the live subscription, if there is one |
| BillingService.Database.FindAwaiting | core/billing/service.py:459-470 | the lookup under the unique index finds the pending subscription, if there is one |
| BillingService.Database.FindByKey | core/billing/service.py:217-219 | the lookup under the unique index finds the tenant's payment with the key, if there is one |
| BillingService.Database.FindByTxn | core/billing/webhooks.py:318-344 | the lookup under the unique index finds the provider's payment with the transaction id, if there is one |
| BillingService.Database.CreatePayment | core/billing/service.py:163-232 | new state and answer are those of the specification; an error leaves all tables alone |
| BillingService.Database.MarkPending | core/billing/service.py:252-257 | the same for opening a transaction |
| BillingService.Database.MarkSucceeded | core/billing/service.py:259-282 | the same for a success, with its activation |
| BillingService.Database.ActivateSubscription | core/billing/service.py:346-392 | the loop over replaced subscriptions produces exactly the swapped table and its events |
| BillingService.Database.Close | core/billing/service.py:298-344 | the same for closing a payment |
| BillingService.Database.CancelPayment | core/billing/service.py:237-248 | the same for a user's cancellation |
| BillingService.Database.ExpireIfOpen | core/billing/jobs.py:76-87 | the recheck under the row lock expires a payment if and only if it is still open |
| BillingService.Database.StartSubscription | core/billing/service.py:451-481 | new state and answer are those of the specification |
| BillingService.Database.OpenCheckout | core/billing/service.py:483-493 | the checkout is opened or replayed under the subscription's own key |
| BillingService.Database.CancelSubscription | core/billing/service.py:495-511 | new state is that of the specification |
| BillingService.Database.AutoSubscribe | core/billing/service.py:513-544 | new state is that of the specification |
| BillingService.Database.CloseEndedPeriod | core/billing/service.py:546-605 | new state is that of the specification, and the result says whether anything was due |
| BillingService.Database.RollPeriods | core/billing/service.py:573-581 | the while loop ends with the rolled-forward period |
| BillingService.Database.FindPayment | core/billing/webhooks.py:318-344 | the lookup is that of the specification |
| BillingService.Database.ApplyAction | core/billing/webhooks.py:269-282 | the transition is that of the specification |
| BillingService.Database.ProcessTransition | core/billing/webhooks.py:211-267 | tables, ledger row and outcome of a first delivery are those of the specification |
| BillingService.Database.Process | core/billing/webhooks.py:121-164 | a whole request leaves the state and the body of the specification |
| BillingService.Database.Inspect | core/billing/webhooks.py:168-181 | a read-only action reports and changes nothing |
| BillingService.Database.Execute | core/billing/jobs.py:54-128 | any step of any actor, run on the tables, is the step of the specification and keeps the invariant |
| BillingService.Database.ExpireStaleCheckouts | core/billing/jobs.py:54-95 | the sweep is one expiry transaction per scanned target, and counts exactly those that acted |
| BillingService.Database.ExpireEndedSubscriptions | core/billing/jobs.py:98-128 | the period-end sweep is one transaction per target up to the first that raises, and counts exactly the targets that were due on their turn |
| BillingSweeps.ExpirySweepIsRun | core/billing/jobs.py:54-95 | an expiry sweep is a run of expiry steps |
| BillingSweeps.SweepExpiresTheOpen | core/billing/jobs.py:54-95 | a sweep expires exactly the targets that are open when it starts, repeated targets included, and its count is their number |
| BillingSweeps.EndSweepIsRun | core/billing/jobs.py:98-128 | a period-end sweep is a run of period-end steps |
| BillingSweeps.SweepEndsTheDue | core/billing/jobs.py:98-128 | a sweep in which nothing raises ends exactly the targets that are due when it starts, leaves every other subscription as due as it was, and its count is the number of distinct due targets |
| Orders.HandleNamed | modules/commerce/orders/service.py:146-181 | one handler transaction on an order it names, in any state: a success pays an order that waits, or a canceled one if it is late and of the order's own payment, and is ignored otherwise; a closing cancels only an order that waits; the one event that is emitted says which, and whether the order was revived |
| Orders.DeliveryOrderDoesNotMatter | modules/commerce/orders/subscribers.py:43-97 | for any order and repetition of deliveries the final status depends only on which events arrived, and each order event is emitted at most once |
| Orders.OnePaymentPerOrder | modules/commerce/orders/service.py:109-115 | in every run in which order payments are opened by placing orders, at most one payment names an order |
| Orders.OrderFollowsPayment | modules/commerce/orders/subscribers.py:35-97 | in every such run, once all events of the order's payment are delivered, the order is paid if and only if the payment succeeded, canceled if and only if it closed without success, waiting if and only if it is open |
| OrderRace.CommitIsSerialExactly | modules/commerce/orders/service.py:146-181 | a handler that decided on an earlier reading does what a serial one would do now if and only if it would still decide the same and a payment it does not write is still the order's |
| OrderRace.OverlapIsSerial | modules/commerce/orders/subscribers.py:43-97 | in every interleaving without such a stale commit, overlapping handlers leave what serial ones leave in the order of their commits |
| OrderRace.OnlyCommitsWrite | modules/commerce/orders/service.py:146-181 | only a commit writes, each handler commits once at most, and one that aborts never does |
| OrderRace.PaidForGoodExactly | modules/commerce/orders/service.py:175-181 | a paid order stays paid in every continuation if and only if no open handler has read it waiting and will cancel it |
| OrderRace.PaidOrderIsCanceled | modules/commerce/orders/service.py:146-181 | an interleaving of two handlers after which an order is canceled although its payment succeeded |
| Storefront.Price | modules/commerce/orders/service.py:61-98 | the pricing loop prices each requested line at the catalogue, sums exactly, and succeeds if and only if there is something to buy, all of it on sale in one currency |
| Storefront.SaleInfoExactly | modules/commerce/products/service.py:126-132 | a product is sold at its catalogue price if and only if it is there and on sale; which error otherwise |
| Storefront.Shop.FindActive | modules/commerce/cart/service.py:60-64 | finds the buyer's active cart, if there is one |
| Storefront.Shop.Merge | modules/commerce/cart/service.py:81-111 | accepted if and only if the currency fits and the new quantity is 1 to 1000; the product's line is updated in place at today's price, or appended |
| Storefront.MergedHolds | modules/commerce/cart/service.py:81-111 | merging adds the quantity to that product and changes no other |
| Storefront.MergedIsGood | modules/commerce/cart/service.py:81-111 | an accepted merge keeps one line per product, quantities 1 to 1000 and one currency |
| Storefront.MergesExactly | modules/commerce/cart/service.py:81-111 | a product is merged if and only if the cart is a good one afterwards, except that a cart with that product alone keeps its currency |
| Storefront.Shop.AddItem | modules/commerce/cart/service.py:66-111 | accepted if and only if the product is on sale, the cart exists or can be opened, and the merge is accepted; then exactly the buyer's active cart changes, to the merged lines; buyers keep one active cart |
| Storefront.Shop.RemoveItem | modules/commerce/cart/service.py:113-122 | accepted if and only if the active cart holds the product; then that product is gone and every other quantity stays; otherwise not found |
| Storefront.Shop.PlaceOrder | modules/commerce/orders/service.py:61-123 | the order is placed unless it cannot be priced, its id is taken or billing refuses the payment, with that error; lines, total and payment amount agree |
| Storefront.Shop.Checkout | modules/commerce/cart/service.py:127-150 | the order has exactly the cart's products and quantities at catalogue prices, and their sum is its total and its payment's amount; the cart closes only then; without a cart not found, with an empty one refused |
| Storefront.Shop.MarkPaid | modules/commerce/orders/service.py:146-173 | the order book becomes that of the specification |
| Storefront.Shop.Cancel | modules/commerce/orders/service.py:175-181 | the order book becomes that of the specification |
| Storefront.Shop.Consume | modules/commerce/orders/subscribers.py:43-97 | a sequence of deliveries is handled one transaction each |
| EventBus.NameExactly | shared/events.py:24-36 | accepted names are exactly three lower-case dotted segments, with or without one final line break |
| EventBus.SegmentExactly | shared/events.py:24-24 | a segment is a small letter followed by small letters, digits and underscores |
| EventBus.PrefixPatternExactly | shared/events.py:26-26 | the prefix patterns are exactly a module, or an entity of one, followed by the star, with or without a line break at the end |
| EventBus.StarReachesAll | shared/events.py:50-59 | the star alone reaches every event |
| EventBus.WildcardExactly | shared/events.py:50-59 | a pattern is a wildcard if and only if it reaches more than one name |
| EventBus.PrivilegedExactly | shared/events.py:131-161 | outside core a subscription is accepted only if it hears one event name at most and not as maintenance |
| EventBus.ModulePattern | shared/events.py:50-55 | `module.*` matches exactly the events of that module |
| EventBus.EntityPattern | shared/events.py:50-55 | `module.entity.*` matches exactly the events of that entity |
| EventBus.ExactPattern | shared/events.py:50-59 | a name as a pattern matches that event alone and is no wildcard |
| EventBus.ReachedOnce | shared/events.py:172-173 | exactly the matching subscriptions are reached, each once |
| EventBus.Bus.constructor | shared/events.py:122-125 | an empty bus is valid and has no queue bound |
| EventBus.Bus.Subscribe | shared/events.py:131-161 | registered if and only if pattern, privilege and id are in order; ids stay unique and only core packages listen widely or as maintenance |
| EventBus.Bus.Publish | shared/events.py:175-202 | the calls are exactly the reached handlers in registration order, whichever of them fail, and the failures are logged in that order; refused for a bad name, or for reliable handlers without a queue |
| EventDelivery.PublishedAfterCommit | shared/service.py:67-138 | a unit of work used once publishes nothing if it rolls back; if it commits it publishes each service's events in emission order, all of them if and only if none raises, otherwise those before the first that does |
| EventDelivery.HeardExactly | shared/service.py:135-138 | a queue is published whole if and only if no publication in it raises; otherwise up to the one that does |
| EventDelivery.ReusedUnitPublishes | shared/service.py:67-89 | what a unit used any number of times has published and still has waiting, service by service: at each commit all that waited, up to a publication that raises |
| EventDelivery.PublishedAreCommittedExactly | shared/service.py:67-89 | each event being emitted once and whatever raises: what a reused unit has published is, service by service, exactly the committed events if and only if at each commit nothing was waiting from a rollback and no own event raised, or there was no own event and the first that was waiting raised |
| EventDelivery.PublishedQuietlyExactly | shared/service.py:67-89 | where no publication raises, repeated events included: the same if and only if no attempt that queued events rolled back before a later commit |
| EventDelivery.GhostEvent | shared/service.py:67-89 | a run of the unit that publishes an event of a rolled-back attempt |
| EventDelivery.EffectsMatchDedupRows | app/worker.py:51-115 | in every run, a handler's committed effects on an event are as many as its dedup row and the number of times that row was swept |
| EventDelivery.EffectivelyOnce | app/worker.py:51-115 | at most one effect if all deliveries come within the retention horizon of the first |
| EventDelivery.TwiceAfterSweep | shared/processed_events.py:39-61 | two effects when a duplicate arrives after the sweep |
| EventDelivery.BackoffTotal | app/worker.py:95-115 | the waits of a job that keeps failing add up to the base delay times 2^n - 1 |
| EventDelivery.UnitOfWork.Emit | shared/service.py:104-112 | queues the event, and registers publication with a service's first one |
| EventDelivery.UnitOfWork.PublishPending | shared/service.py:135-138 | publishes a queue up to the first publication that raises |
| EventDelivery.UnitOfWork.Leave | shared/service.py:67-85 | a commit runs every registered callback, whether or not others raise, and clears them; a rollback publishes and clears nothing |
| EventDelivery.Worker.DispatchEvent | app/worker.py:51-115 | an unknown handler leaves no trace and is not retried; otherwise dedup row and effect commit together or not at all: done, skipped, retried with backoff, or dead-lettered at the last try |
| EventDelivery.Worker.PurgeProcessed | shared/processed_events.py:39-61 | drops exactly the rows past the horizon |
| RefreshTokens.FamiliesAreChains | core/auth/service.py:181-269 | under every interleaving a family has exactly one token more than rotated ones, and at most one usable token |
| RefreshTokens.RevocationIsForGood | core/auth/service.py:293-306 | with revocation and rotation each in one atomic step: once a family has ended, no token it has or ever gets is usable, whatever follows |
| RefreshTokens.ReuseEndsTheFamily | core/auth/service.py:210-269 | presenting a token that is not the current one ends the family |
| RefreshTokens.PasswordChangeEndsEveryFamily | core/auth/service.py:308-315 | a password change ends every family of the user |
| RefreshTokens.LogoutEndsTheSessionExactly | core/auth/service.py:285-291 | a logout ends the session if and only if its token is the current one or the session had ended |
| RefreshTokens.LogoutWithARotatedToken | core/auth/service.py:285-291 | a run in which an old token's logout leaves the session usable |
| RefreshTokens.OneWinner | core/auth/service.py:238-269 | of two requests that read the same current token at most one gets a successor |
| RefreshTokens.CurrentTokenRotates | core/auth/service.py:210-269 | an active user's current, unexpired token does get its successor |
| RefreshTokens.StepSparesTheRest | core/auth/service.py:210-306 | a step revokes or rotates exactly the tokens it concerns: a family only when one of its tokens is reused or its user blocked, one token at a logout, all of a user's at a password change; every other token stays as it is |
| RefreshTokens.NewTokens | core/auth/service.py:181-270 | a token comes from a login or as the successor of a current one, for the same user and family |
| RefreshTokens.StepReads | core/auth/service.py:210-250 | a refresh goes on to rotate if and only if its token is current, not expired and of a user who is not blocked |
| RefreshTokens.StepEndsExactly | core/auth/service.py:285-306 | one step ends a session if and only if it gives away a token of it, logs out its current token, or changes its user's password |
| RefreshTokens.SessionEndsExactly | core/auth/service.py:210-306 | over every run a session has ended if and only if one of these three happened to this very session |
| RefreshTokens.RunKeeps | core/auth/service.py:181-345 | every interleaving of reads, rotations, logouts and password changes keeps the chains |
| RefreshTokens.TokenStore.IssueTokens | core/auth/service.py:181-208 | starts a family with one token |
| RefreshTokens.TokenStore.RevokeFamily | core/auth/service.py:293-298 | revokes the tokens of the family and no other, as StepSparesTheRest states for every step |
| RefreshTokens.TokenStore.ReadForRefresh | core/auth/service.py:210-236 | the checks of a refresh, with revocation on reuse, as specified |
| RefreshTokens.TokenStore.Rotate | core/auth/service.py:238-269 | the compare-and-set inserts a successor if and only if the token is still current |
| RefreshTokens.TokenStore.Logout | core/auth/service.py:285-291 | revokes the presented token |
| RefreshTokens.TokenStore.RevokeAllUserTokens | core/auth/service.py:300-306 | revokes every token of the user and no other |
| RefreshRace.RunKeeps | core/auth/service.py:238-306 | with rows visible at commit, every interleaving of open rotations and waiting revocations keeps one chain whose last token alone is current, and an open rotation holds a current token that is not revoked |
| RefreshRace.EndedLetsGo | core/auth/service.py:210-306 | a refresh that commits or aborts lets go of its row, and a revocation that ends is over |
| RefreshRace.EndedForGood | core/auth/service.py:238-306 | once no token is usable none ever is again, whatever transactions are still open |
| RefreshRace.RevocationCatchesExactly | core/auth/service.py:293-306 | a revocation that starts and finishes around any other steps, other revocations included, leaves a usable token if and only if a rotation committed in between and its successor is still usable when the revocation finishes |
| RefreshRace.SuccessorEscapes | core/auth/service.py:238-298 | a run in which the successor survives a revocation that waited for its rotation |
| InstallOrder.InstallationOrder | modules/loader.py:138-155 | succeeds if and only if the requires graph has no cycle; the result holds each manifest once, sorted by the length of the longest requires chain and then by name |
| InstallOrder.RequirementsComeFirst | modules/loader.py:138-155 | every requirement that is a manifest stands before its dependents |
| InstallOrder.OrderIsUnique | modules/loader.py:138-155 | two lists of the same names in that order are equal, so the input order does not matter |
| InstallOrder.StuckIsCyclic | modules/loader.py:149-151 | where every remaining feature requires a remaining one there is a cycle |
| InstallOrder.EmptyIsAcyclic | modules/loader.py:143-155 | if every layer could be taken there is none |
| InstallOrder.SortNames | modules/loader.py:144-148 | the names of a layer, alphabetically and once each |
| FeatureChain.Search.Visit | tools/add_feature.py:50-58 | the visit ends on every graph, adds only reachable features, closes each after all it requires, and fails only at a missing requirement |
| FeatureChain.ResolveChain | tools/add_feature.py:43-61 | succeeds if and only if the feature is known and nothing reachable is missing; returns exactly the reachable features once each, the requested one last, and on acyclic graphs requirements first |
| FeatureChain.BackIsCycle | tools/add_feature.py:50-58 | a requirement that is still on the search path closes a cycle |
| FeatureChain.ChainCore | tools/add_feature.py:97-109 | the core check over the chain is the core check over everything reachable |
| FeatureChain.Target.CopyOne | tools/add_feature.py:83-93 | an installed dependency stays, the requested feature is replaced only by force, an absent one is copied |
| FeatureChain.Target.CopyChain | tools/add_feature.py:81-94 | what the copy loop has done when it ends or refuses, and the features it reports |
| FeatureChain.Target.AddFeature | tools/add_feature.py:64-94 | which refusal comes when, exactly; after success the target holds the whole closure, no installed dependency was overwritten, and the reported features are installable in turn; early refusals change nothing, the last one leaves the copied requirements |
| Outbox.BackoffSchedule | core/notifications/dispatcher.py:230-234 | one minute, doubled per attempt, sixteen minutes exactly from the fifth on |
| Outbox.FinishedExactly | core/notifications/dispatcher.py:135-181 | a finished claim: sent if and only if it could be sent and was accepted, dead if and only if it was unsendable, refused for good or failed at the last attempt, and otherwise put off by the backoff; no other row changes |
| Outbox.TakenExactly | core/notifications/dispatcher.py:95-133 | a row is taken if and only if it is due: one attempt more, and a lease from now |
| Outbox.NoTwoOwners | core/notifications/dispatcher.py:93-133 | in every run at most one open claim of a row is within its lease, and an open claim of a settled row has lost its lease |
| Outbox.AttemptsBounded | core/notifications/dispatcher.py:93-179 | attempts are the finalised and the open claims; they exceed the maximum by no more than the open ones; a settled row was settled once |
| Outbox.EndedIsForGood | core/notifications/dispatcher.py:207-254 | sent and dead rows never change again, whatever follows |
| Outbox.LateFinaliserUndoes | core/notifications/dispatcher.py:207-215 | a run in which a finaliser after its lease turns a sent row back to failed |
| Outbox.SettledForGoodExactly | core/notifications/dispatcher.py:207-254 | with workers that outlive their leases, a sent or dead row stays so in every continuation if and only if no claim of it is still open |
| Outbox.BatchIsTakes | core/notifications/dispatcher.py:93-133 | claiming a batch is the same as claiming its rows one by one |
| Outbox.Table.SelectDue | core/notifications/dispatcher.py:98-113 | picks unlocked due rows, earliest first, none left that is earlier, as many as the batch allows |
| Outbox.Table.ClaimBatch | core/notifications/dispatcher.py:93-133 | exactly the picked rows become sending with one more attempt and the lease deadline; the claims carry their numbers, in order |
| Outbox.Table.ProcessRow | core/notifications/dispatcher.py:136-179 | the row gets the verdict of what was found; the failure event is published exactly for dead rows |
| Outbox.Table.MarkSent | core/notifications/dispatcher.py:218-227 | only the row's status changes; a missing row is skipped |
| Outbox.Table.Reschedule | core/notifications/dispatcher.py:230-241 | status and next retry change; a missing row is skipped |
| Outbox.Table.Bury | core/notifications/dispatcher.py:244-254 | only the row's status changes; a missing row is skipped |
| Throttle.FewerThanTwiceTheLimit | core/auth/rate_limit.py:17-36 | any span as long as the window lets at most twice the limit less one through, for all hit times; none for a limit of zero |
| Throttle.BurstsReach | core/auth/rate_limit.py:28-36 | for every limit and every window of at least two moments, hits that let twice the limit less one through |
| Throttle.AllowedExactly | core/auth/rate_limit.py:17-36 | for every limit and every window of at least one moment: a number of hits can pass in a span as long as the window if and only if it is below twice the limit, or within it where the window is a single moment |
| Throttle.FailuresBounded | core/auth/rate_limit.py:39-60 | over all interleavings with at most k attempts between lock check and verdict, successes included, one life of the failure counter records at most the free failures, the k in flight, and the extra ones whose waits fit into the lockout time |
| Throttle.FailuresExactly | core/auth/service.py:131-149 | for every k, a number of failures in one life is possible if and only if it is within that bound |
| Throttle.ExtraFailuresExist | core/auth/rate_limit.py:50-57 | the number of extra failures exists for every lockout time and every k |
| Throttle.WaitsAlone | core/auth/rate_limit.py:53-57 | with one attempt at a time the waits add up to sixty (2^n - 1) seconds |
| Throttle.Store.IncrWithTtl | core/auth/rate_limit.py:17-25 | counts up without moving the expiry, or starts anew with one |
| Throttle.Store.Hit | core/auth/rate_limit.py:32-36 | allowed exactly as the fixed-window rule says for all hits of the key so far; other keys keep theirs |
| Throttle.Store.IsLocked | core/auth/rate_limit.py:47-48 | locked exactly until the lock expires |
| Throttle.Store.RecordFailure | core/auth/rate_limit.py:50-57 | counter and lock of the account become those of the specification; other accounts keep theirs |
| Throttle.Store.Clear | core/auth/rate_limit.py:59-60 | forgets counter and lock of the account only |
| Throttle.Store.Login | core/auth/service.py:131-149 | a locked account is turned away before the password counts; the account's new state is that of a check and a verdict with nothing in between |
| Breaker.ClosedExactly | shared/resilience.py:85-100 | under any interleaving of callers the circuit is closed if and only if the failures in a row are below the threshold, and an open one was opened by the last failure |
| Breaker.TidyExactly | shared/resilience.py:65-79 | that law holds in all runs if and only if the threshold is at least one |
| Breaker.DeadTargetIsSpared | shared/resilience.py:85-148 | a sequential caller of an always-failing target runs it threshold times before the circuit opens, and n more runs take at least n recovery times |
| Breaker.OpenLetsExactly | shared/resilience.py:85-89 | while nobody reports, an open circuit lets a call through if and only if it or an earlier ask came after the recovery time |
| Breaker.OneProbeExactly | shared/resilience.py:85-100 | an open circuit lets at most one call through before a report if and only if nobody asks again after an ask that came past the recovery time |
| Breaker.TwoProbesPass | shared/resilience.py:85-100 | for every threshold and recovery time, a run from the new circuit after which two calls pass before either reports |
| Breaker.Guard.constructor | shared/resilience.py:65-79 | a new circuit is closed without failures |
| Breaker.Guard.Allow | shared/resilience.py:85-89 | lets calls through unless open within its recovery time |
| Breaker.Guard.RecordSuccess | shared/resilience.py:91-93 | closes the circuit and clears the count |
| Breaker.Guard.RecordFailure | shared/resilience.py:95-100 | opens on a failed probe or at the threshold |
| Breaker.Guard.Call | shared/resilience.py:103-148 | at most the given attempts run, each let through by the circuit; only the last can be other than a transient failure; how the call ends and what the circuit becomes |
| Limits.LimitHolds | modules/saas/entitlements/service.py:98-113 | however transactions interleave under the lock, committed objects stay within a limit they started within |
| Limits.OneMoreExactly | modules/saas/entitlements/service.py:98-113 | a creating transaction on its own commits one object more if and only if there is room, and leaves the lock free |
| Limits.RolledBackLeavesNothing | modules/saas/entitlements/service.py:98-113 | one that rolls back leaves everything as it was |
| Limits.BothPass | shared/locks.py:13-18 | without the lock two transactions pass at one below any positive limit |
| Limits.LimitHoldsExactly | modules/saas/entitlements/service.py:98-113 | the limit holds in every run if and only if the lock is taken or the limit is zero |
| Onboarding.AnnouncedExactlyOnce | modules/saas/onboarding/service.py:52-68 | in every interleaving completion is committed once if all steps are done and never before |
| Onboarding.CompletedAlone | modules/saas/onboarding/service.py:52-68 | a step completed on its own is done, announced if it was the last one missing, and leaves the lock free; an unknown or repeated one changes nothing |
| Onboarding.RolledBackAlone | modules/saas/onboarding/service.py:52-68 | one that rolls back leaves everything as it was |
| Onboarding.NobodyAnnounces | shared/locks.py:13-18 | without the lock, for any two last steps, a run that ends with all steps done and no announcement |
| Onboarding.AnnouncedExactly | modules/saas/onboarding/service.py:52-68 | for every non-empty list of steps: every run announces exactly once if and only if the lock is taken or the list has a single step |
| Onboarding.ShownCompleteExactly | modules/saas/onboarding/service.py:78-92 | shown as complete if and only if there are steps and all are done, repeated steps included |
| Onboarding.Service.CompleteStep | modules/saas/onboarding/service.py:52-68 | refuses unknown steps, is idempotent, adds the row and announces exactly with the last missing step |
| Metering.NothingIsLost | modules/saas/metering/service.py:53-84 | in every run and for every query, what the table holds and what was purged add up to what was recorded |
| Metering.LogIsWhatWasAccepted | modules/saas/metering/service.py:53-64 | what counts as recorded is exactly every amount with a proper key and a positive value |
| Metering.RecordedShows | modules/saas/metering/service.py:65-84 | a recorded amount shows in a usage if and only if tenant, metric and day are those asked for |
| Metering.PurgesExactly | modules/saas/metering/retention.py:41-56 | one purge deletes the row before the cutoff and only that row |
| Metering.UsageIsWhatWasRecorded | modules/saas/metering/service.py:76-84 | usage over a window that starts at or after every cutoff is exactly the recorded sum |
| Metering.UsageExactly | modules/saas/metering/service.py:76-84 | for any window usage is exact if and only if no purged row fell into it, and never too high |
| Metering.OneRowPerCounter | modules/saas/metering/service.py:65-74 | a tenant, metric and day have one row at most, with a positive value |
| Metering.WindowsAddUp | modules/saas/metering/service.py:100-106 | windows that meet add up, open ends included |
| Metering.SummaryAgrees | modules/saas/metering/service.py:86-98 | the summary holds the usage of each metric and exactly the metrics with a row in the window |
| Metering.Table.Record | modules/saas/metering/service.py:53-74 | adds the amount to every query it matches and to no other; refuses bad keys and amounts |
| Metering.Table.Usage | modules/saas/metering/service.py:76-84 | the summing loop computes the query's total |
| Metering.Table.OldestExpired | modules/saas/metering/retention.py:41-47 | finds an oldest row before the cutoff if and only if there is one |
| Metering.Table.PurgeExpired | modules/saas/metering/retention.py:31-56 | deletes the oldest expired rows, as many as there are up to one thousand, and keeps all others in place |
| Metering.Table.SweepOnce | modules/saas/metering/retention.py:31-56 | one sweep after recordings for any days, seen from an earlier and a later cutoff: it is full while the earlier one still expires rows, and every amount is kept or deleted |
| Metering.Table.Drain | app/worker.py:144-153 | with cutoffs that move on and others recording for any days between the sweeps: removes at least the rows the first cutoff expires and at most those the last one expires and those recorded meanwhile that it does, up to one hundred thousand; nothing else is lost |

## Left out

- HTTP routes, middleware, logging, metrics, permission guards and audit records: presentation and checks around the protocols.
- Cryptography and token formats: whether a signature is right, wrong, or its comparison raises is an input.
- Stripe's network calls and signature header; a Stripe callback is modelled from its parsed fields on.
- Decoding of request bodies: a request is modelled from its decoded fields on, so a body that cannot be decoded (a JSON integer of more than 4300 digits) and a text that the database refuses (a NUL character) come before or after the model.
- Validation of return URLs, and the lookup of plans by id next to their unique code.
- Callers that pass the purpose `subscription` or a `subscription:` key to create_payment themselves: the model keeps these for start_subscription.
- The age cut-off, ordering and batch limit of the sweep scans: a scan is any list of targets, each rechecked.
- The year 9999 limit of the date library.
- Adapters.MillisExactly: time stamps are converted exactly, where the source multiplies a floating-point number, which may give one millisecond less.
- Entitlement rows: the code does not keep them equal to billing after a free plan rolls forward.
- A crash between commit and enqueue: the event is lost there, so effects are proved to happen at most once and not to happen.
- Statement-level snapshots across several families: the model with rows visible at commit is of one family; in the other one reading and compare-and-set are two atomic steps.
- Throttle.FailuresExactly: counting a failure and setting its lock are one step, so a lock that is set late and replaces a longer one is not modelled.
- The events of placing an order and of cart changes; order events are those of paying and canceling.
- Order lookups by tenant, and the wait of one handler's write for another's commit: a handler reads at one moment and writes at its commit.
- Purging of terminal outbox rows, rendering of templates, the SMS counter itself: their results are inputs.
- validate_dependencies, manifest parsing and package files: only the graph and the folders are modelled, and cache files in a folder are not told apart.
- Backoff jitter, and calls without a breaker: waiting moves the clock readings, which are inputs.
- The fallback flags and plan grid behind a limit: the limit is a fixed number.
- CRM, products, files, admin, search and i18n: mostly single-branch checks.
- Throttle.FailuresBounded: is stated for thresholds and lockout times of at least one, as configured.
