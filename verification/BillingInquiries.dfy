/**
 Requests that change nothing: checks and status questions, forged requests, and requests of a
 provider that is not enabled. What each is answered, and that nobody is worse off for them.
 */
module BillingInquiries {
  import opened Base
  import opened Calendar
  import opened Billing
  import opened Adapters
  import opened Webhooks
  import opened BillingInvariant
  import opened BillingRuns
  import opened BillingTheorems
  import opened BillingProtocol

  // ---------------------------------------------------------------- CheckPerformTransaction

  /** The payment that a check names by our id. */
  predicate NamesPayment(s: State, r: Request, id: Id) {
    r.PaymeCall? && r.account == Some(id) && id in s.payments && s.payments[id].provider == Payme
  }

  /** Whether a payment may be paid: only an open one, and only with its own amount. */
  ghost function CheckAnswer(s: State, r: Request): Body
    requires r.PaymeCall?
  {
    if r.signature == Forged then PaymeError(-32504, r.rpcId)
    else if r.account.None? || !NamesPayment(s, r, r.account.value) then PaymeError(-31050, r.rpcId)
    else
      var p := s.payments[r.account.value];
      if p.money.currency != "UZS" || r.tiyin != Integer(100 * p.money.amount) then PaymeError(-31001, r.rpcId)
      else if p.status == Created || p.status == Pending then PaymeAnswer(Allow, r.rpcId)
      else PaymeError(-31008, r.rpcId)
  }

  lemma PaymeCheck(s: State, r: Request, digest: string, now: Moment)
    requires AllStamped(s.payments) && Payme in s.providers
    requires r.PaymeCall? && r.rpcMethod == CheckPerformTransaction && r.signature != Raises
    ensures Deliver(s, r, digest, now) == Replied(s, CheckAnswer(s, r))
  {
    if r.account.Some? && NamesPayment(s, r, r.account.value) {
      var p := s.payments[r.account.value];
      assert StampsAgree(p);
      PaymeAmountRoundTrip(p.money, r.tiyin);
    }
  }

  // ---------------------------------------------------------------- CheckTransaction

  /** A status question that is forged or about a transaction nobody has. */
  lemma PaymeStatusRefused(s: State, r: Request, digest: string, now: Moment)
    requires Payme in s.providers && r.PaymeCall? && r.rpcMethod == CheckTransaction && r.signature != Raises
    requires r.signature == Genuine ==>
               r.txn.None? || r.txn.value == "" || forall id :: !TxnRow(s.payments, Payme, r.txn.value, id)
    ensures Deliver(s, r, digest, now)
            == Replied(s, PaymeError(if r.signature == Forged then -32504 else -31003, r.rpcId))
  {
  }

  // ---------------------------------------------------------------- forged requests

  function ForgedAnswer(r: Request): Body {
    match r
    case PaymeCall(rpcId, _, _, _, _, _, _) => PaymeError(-32504, rpcId)
    case ClickForm(trans, merchant, _, prepareId, _, _, _, _) =>
      ClickAnswer(trans, merchant, if prepareId != "" then Some(Echoed(prepareId)) else None, -1)
    case StripeEvent(_, _, _, _) => StripeRefused
  }

  /** A forged request is refused in its dialect; at most it is put on record as rejected. */
  lemma ForgedIsRefused(s: State, r: Request, digest: string, now: Moment)
    requires RequestProvider(r) in s.providers && Parse(r).Recognised? && !Authentic(r)
    ensures var d := Deliver(s, r, digest, now);
            && d.Replied? && d.body == ForgedAnswer(r)
            && d.state == s.(ledger := d.state.ledger)
            && (forall key :: key in s.ledger ==> key in d.state.ledger && d.state.ledger[key] == s.ledger[key])
            && (forall key :: key in d.state.ledger && key !in s.ledger ==>
                  key == Rejected(RequestProvider(r), digest) && d.state.ledger[key] == LedgerRow(BadSignature, None))
            && (!ReadOnly(Parse(r).callback.action) ==> Rejected(RequestProvider(r), digest) in d.state.ledger)
  {
    ParsedIsWellFormed(r);
  }

  /** A forged request never stands in the way of a genuine one. */
  lemma ForgedNeverBlocks(s: State, r: Request, digest: string, now: Moment, genuine: Request)
    requires RequestProvider(r) in s.providers && Parse(r).Recognised? && !Authentic(r) && Fresh(s, genuine)
    ensures Deliver(s, r, digest, now).Replied? && Fresh(Deliver(s, r, digest, now).state, genuine)
  {
    ForgedIsRefused(s, r, digest, now);
  }

  /** A request of a provider that is not enabled, or that its dialect does not accept, is not answered. */
  lemma NotAccepted(s: State, r: Request, digest: string, now: Moment)
    requires RequestProvider(r) !in s.providers || !Known(r) || AmountRaises(r) || r.signature == Raises
    ensures Deliver(s, r, digest, now) == Raised
  {
    ParseEscapesExactly(r);
  }

  /** Stripe events that are not about a session are acknowledged and change nothing. */
  lemma StripeUnhandled(s: State, r: Request, digest: string, now: Moment)
    requires Stripe in s.providers && r.StripeEvent? && r.kind == Unhandled && r.signature == Genuine
    ensures Deliver(s, r, digest, now) == Replied(s, StripeReceived)
  {
  }
}
