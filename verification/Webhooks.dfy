/**
 One provider callback end to end: authentication, the dedup ledger, the payment transition and
 the answer, all in one transaction. A second delivery is answered from committed state.
 */
module Webhooks {
  import opened Base
  import opened Calendar
  import opened Billing
  import opened Adapters

  /** What a delivery does: an answer with the committed tables, or an exception that rolls back. */
  datatype Delivery = Replied(state: State, body: Body) | Raised

  predicate ReadOnly(action: Action) {
    action == Check || action == Status
  }

  function TxnText(txn: Option<string>): string {
    if txn.Some? then txn.value else "None"
  }

  function KeyOf(c: Callback): LedgerKey {
    Claimed(c.provider, TxnText(c.txn), c.action)
  }

  /** Our payment id first, then the stored provider transaction; only rows of this provider. */
  ghost function FindPayment(s: State, c: Callback): (r: Option<Id>)
    ensures r.Some? ==> r.value in s.payments && s.payments[r.value].provider == c.provider
    ensures r.Some? && r != c.reference ==> c.txn.Some? && s.payments[r.value].txnId == c.txn
    ensures c.reference.Some? && c.reference.value in s.payments
              && s.payments[c.reference.value].provider == c.provider ==>
              r == c.reference
    ensures r.None? ==> (c.reference.Some? && c.reference.value in s.payments
                         ==> s.payments[c.reference.value].provider != c.provider)
                        && (c.txn.Some? && c.txn.value != ""
                            ==> forall id :: !TxnRow(s.payments, c.provider, c.txn.value, id))
  {
    if c.reference.Some? && c.reference.value in s.payments && s.payments[c.reference.value].provider == c.provider
    then c.reference
    else if c.txn.Some? && c.txn.value != "" then ByTxn(s.payments, c.provider, c.txn.value)
    else None
  }

  /** An action without an amount has nothing to reconcile. */
  predicate AmountOk(c: Callback, p: Payment) {
    c.amount.None? || c.amount.value == p.money
  }

  ghost function AnsweredRow(s: State, id: Option<Id>): Option<Answered> {
    if id.Some? && id.value in s.payments then Some(Answered(id.value, s.payments[id.value])) else None
  }

  ghost function HandleReadOnly(s: State, c: Callback): CallbackOutcome {
    if !c.authentic then CallbackOutcome(InvalidSignature, None)
    else
      match FindPayment(s, c)
      case None => CallbackOutcome(UnknownPayment, None)
      case Some(id) =>
        var p := s.payments[id];
        var row := Some(Answered(id, p));
        if !AmountOk(c, p) then CallbackOutcome(AmountMismatch, row)
        else if c.action == Check && !IsOpen(p.status) then CallbackOutcome(InvalidState, row)
        else CallbackOutcome(Success, row)
  }

  ghost function ApplyAction(s: State, id: Id, c: Callback, now: Moment): Outcome<State>
    requires id in s.payments
  {
    match c.action
    case Create =>
      if s.payments[id].status != Created then Err(InvariantViolation)
      else MarkPending(s, id, if c.txn.Some? then c.txn.value else "", now)
    case Confirm => MarkSucceeded(s, id, now)
    case Cancel => ClosePayment(s, id, Canceled, c.reason, now)
    case _ => Err(InvariantViolation)
  }

  /** How an applied action ends: a refused transition is answered, not raised. */
  ghost function Conclude(s: State, id: Id, applied: Outcome<State>): Outcome<(State, LedgerRow, CallbackOutcome)> {
    match applied
    case Ok(next) => Ok((next, LedgerRow(Processed, Some(id)), CallbackOutcome(Success, AnsweredRow(next, Some(id)))))
    case Err(InvariantViolation) =>
      Ok((s, LedgerRow(FailedState, Some(id)), CallbackOutcome(InvalidState, AnsweredRow(s, Some(id)))))
    case Err(e) => Err(e)
  }

  /** Apply the action to the payment it found. */
  ghost function Act(s: State, id: Id, c: Callback, now: Moment): Outcome<(State, LedgerRow, CallbackOutcome)>
    requires id in s.payments
  {
    Conclude(s, id, ApplyAction(s, id, c, now))
  }

  /** The ledger row and the outcome of a first delivery; the row commits with the transition. */
  ghost function Transition(s: State, c: Callback, now: Moment): Outcome<(State, LedgerRow, CallbackOutcome)> {
    match FindPayment(s, c)
    case None => Ok((s, LedgerRow(RejectedNotFound, None), CallbackOutcome(UnknownPayment, None)))
    case Some(id) =>
      if AmountOk(c, s.payments[id]) then Act(s, id, c, now)
      else Ok((s, LedgerRow(RejectedAmount, Some(id)), CallbackOutcome(AmountMismatch, AnsweredRow(s, Some(id)))))
  }

  /** A duplicate is answered from the ledger row and the payment as it is now. */
  ghost function Replay(s: State, row: LedgerRow): CallbackOutcome {
    ReplayRow(row.status, AnsweredRow(s, row.payment))
  }

  function ReplayRow(status: LedgerStatus, payment: Option<Answered>): CallbackOutcome {
    match status
    case RejectedAmount => CallbackOutcome(AmountMismatch, payment)
    case RejectedNotFound => CallbackOutcome(UnknownPayment, payment)
    case BadSignature => CallbackOutcome(UnknownPayment, payment)
    case FailedState => CallbackOutcome(InvalidState, payment)
    case _ => if payment.None? then CallbackOutcome(UnknownPayment, None)
              else CallbackOutcome(AlreadyProcessed, payment)
  }

  function Journal(s: State, key: LedgerKey, row: LedgerRow): State {
    s.(ledger := s.ledger[key := row])
  }

  ghost function Dispatch(s: State, r: Request, c: Callback, digest: string, now: Moment): Delivery {
    if ReadOnly(c.action) then
      if AnswerRaises(r, c.action, HandleReadOnly(s, c)) then Raised
      else Replied(s, Answer(r, c.action, HandleReadOnly(s, c)))
    else if !c.authentic then
      var key := Rejected(c.provider, digest);
      Replied(if key in s.ledger then s else Journal(s, key, LedgerRow(BadSignature, None)),
              Answer(r, c.action, CallbackOutcome(InvalidSignature, None)))
    else if KeyOf(c) in s.ledger then
      Replied(s, Answer(r, c.action, Replay(s, s.ledger[KeyOf(c)])))
    else
      match Transition(s, c, now)
      case Err(_) => Raised
      case Ok((next, row, outcome)) => Replied(Journal(next, KeyOf(c), row), Answer(r, c.action, outcome))
  }

  ghost function Deliver(s: State, r: Request, digest: string, now: Moment): Delivery {
    if RequestProvider(r) !in s.providers || !Parse(r).Recognised? then Raised
    else Dispatch(s, r, Parse(r).callback, digest, now)
  }

  // ---------------------------------------------------------------- the key as text

  function ActionText(action: Action): string {
    match action
    case Check => "check"
    case Create => "create"
    case Confirm => "confirm"
    case Cancel => "cancel"
    case Status => "status"
  }

  /** The dedup key as stored. */
  function KeyText(key: LedgerKey): string {
    match key
    case Claimed(_, txn, action) => txn + ":" + ActionText(action)
    case Rejected(_, digest) => "rejected:" + digest
  }

  predicate IsDigest(text: string) {
    |text| == 64 && ':' !in text
  }

  /** A text has at most one split at its last colon. */
  lemma LastColonSplit(a: string, b: string, c: string, d: string)
    requires a + ":" + b == c + ":" + d
    requires ':' !in b && ':' !in d
    ensures a == c && b == d
  {
    var text := a + ":" + b;
    assert text[|a|] == ':' && forall i :: |a| < i < |text| ==> text[i] == b[i - |a| - 1];
    assert text[|c|] == ':' && forall i :: |c| < i < |text| ==> text[i] == d[i - |c| - 1];
    assert |a| == |c|;
    assert a == text[..|a|] == c;
    assert b == text[|a| + 1..] == d;
  }

  /** Stored keys collide only for equal keys, so rejected traffic never takes a callback's key. */
  lemma KeyTextInjective(a: LedgerKey, b: LedgerKey)
    requires a.provider == b.provider && KeyText(a) == KeyText(b)
    requires a.Rejected? ==> IsDigest(a.digest)
    requires b.Rejected? ==> IsDigest(b.digest)
    ensures a == b
  {
    var (ax, ay) := if a.Claimed? then (a.txn, ActionText(a.action)) else ("rejected", a.digest);
    var (bx, by') := if b.Claimed? then (b.txn, ActionText(b.action)) else ("rejected", b.digest);
    assert KeyText(a) == ax + ":" + ay;
    assert KeyText(b) == bx + ":" + by';
    LastColonSplit(ax, ay, bx, by');
  }

  /** The one ambiguity of the stored key: an absent transaction id reads like the id "None". */
  lemma KeyOfCollision(c: Callback, d: Callback)
    ensures KeyOf(c) == KeyOf(d)
            <==> && c.provider == d.provider && c.action == d.action
                 && (c.txn == d.txn || {c.txn, d.txn} == {None, Some("None")})
  {
    if c.txn.None? && d.txn == Some("None") {
      assert {c.txn, d.txn} == {None, Some("None")};
    }
    if {c.txn, d.txn} == {None, Some("None")} {
      assert c.txn in {None, Some("None")} && d.txn in {None, Some("None")};
    }
  }
}
