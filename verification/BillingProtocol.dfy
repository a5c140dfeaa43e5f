/**
 What a provider can rely on: the answer and the effect of the first delivery of each
 state-changing request, from the request as it arrives to the tables and the body.
 */
module BillingProtocol {
  import opened Base
  import opened Calendar
  import opened Billing
  import opened Adapters
  import opened Webhooks
  import opened Numerals
  import opened BillingInvariant
  import opened BillingRuns
  import opened BillingTheorems

  /** An authenticated request of an enabled provider whose key is not in the ledger yet. */
  ghost predicate Fresh(s: State, r: Request) {
    ChangesState(r) && RequestProvider(r) in s.providers && LedgerKeyOf(r) !in s.ledger
  }

  /** Whom a request names, by our id or by the transaction; a payment of another provider is nobody. */
  ghost function Named(s: State, provider: Provider, reference: Option<Id>, txn: Option<string>): (r: Option<Id>)
    ensures r.Some? ==> r.value in s.payments && s.payments[r.value].provider == provider
  {
    FindPayment(s, Callback(provider, txn, Status, reference, None, None, true))
  }

  /** A missing transaction id is stored as the empty text. */
  function StoredTxn(txn: Option<string>): string {
    if txn.Some? then txn.value else ""
  }

  /** Another payment of the provider has the transaction. */
  ghost predicate TakenByOther(s: State, provider: Provider, txn: string, id: Id) {
    exists other :: other != id && TxnRow(s.payments, provider, txn, other)
  }

  /** The answer, and the transition that was made; only the ledger says more. */
  ghost predicate Moved(d: Delivery, moved: Outcome<State>, body: Body) {
    d.Replied? && d.body == body && moved.Ok? && d.state == moved.value.(ledger := d.state.ledger)
  }

  ghost predicate Refused(s: State, d: Delivery, body: Body) {
    d.Replied? && d.body == body && SameTables(s, d.state)
  }

  /** The first delivery is the transition, journalled and answered. */
  lemma FirstDelivery(s: State, r: Request, digest: string, now: Moment)
    requires Fresh(s, r)
    ensures var c := Parse(r).callback;
            Deliver(s, r, digest, now) == match Transition(s, c, now)
                                          case Err(_) => Raised
                                          case Ok((next, row, outcome)) =>
                                            Replied(Journal(next, KeyOf(c), row), Answer(r, c.action, outcome))
  {
    ParsedIsWellFormed(r);
  }

  /** A callback that finds nobody, or somebody with another amount, only leaves its ledger row. */
  lemma Unmatched(s: State, c: Callback, now: Moment)
    requires FindPayment(s, c).Some? ==> !AmountOk(c, s.payments[FindPayment(s, c).value])
    ensures Transition(s, c, now).Ok? && Transition(s, c, now).value.0 == s
    ensures Transition(s, c, now).value.2 == match FindPayment(s, c)
                                            case None => CallbackOutcome(UnknownPayment, None)
                                            case Some(id) =>
                                              CallbackOutcome(AmountMismatch, Some(Answered(id, s.payments[id])))
  {
  }

  /** A cancellation that found its payment. */
  lemma Canceling(s: State, c: Callback, now: Moment, id: Id)
    requires c.action == Cancel && FindPayment(s, c) == Some(id) && AmountOk(c, s.payments[id])
    ensures Transition(s, c, now).Ok?
    ensures var (next, row, outcome) := Transition(s, c, now).value;
            var closed := ClosedRow(s.payments[id], Canceled, c.reason, now);
            if IsOpen(s.payments[id].status) then
              Ok(next) == ClosePayment(s, id, Canceled, c.reason, now)
                && outcome == CallbackOutcome(Success, Some(Answered(id, closed)))
            else next == s && outcome == CallbackOutcome(InvalidState, Some(Answered(id, s.payments[id])))
  {
  }

  /** A creation that found its payment with the right amount; a transaction of another payment raises. */
  lemma Opening(s: State, c: Callback, now: Moment, id: Id)
    requires c.action == Create && FindPayment(s, c) == Some(id) && AmountOk(c, s.payments[id])
    ensures Transition(s, c, now).Err?
            <==> s.payments[id].status == Created && TakenByOther(s, c.provider, StoredTxn(c.txn), id)
    ensures Transition(s, c, now).Ok? ==>
              var (next, row, outcome) := Transition(s, c, now).value;
              var open := OpenedRow(s.payments[id], StoredTxn(c.txn), now);
              if s.payments[id].status == Created then
                Ok(next) == MarkPending(s, id, StoredTxn(c.txn), now)
                  && outcome == CallbackOutcome(Success, Some(Answered(id, open)))
              else next == s && outcome == CallbackOutcome(InvalidState, Some(Answered(id, s.payments[id])))
  {
  }

  /** A confirmation that found its payment with the right amount. */
  lemma Confirmed(s: State, c: Callback, now: Moment, id: Id)
    requires Inv(s) && c.action == Confirm && FindPayment(s, c) == Some(id) && AmountOk(c, s.payments[id])
    ensures Transition(s, c, now).Ok?
    ensures var (next, row, outcome) := Transition(s, c, now).value;
            if s.payments[id].status in {Created, Pending, Expired} then
              && Ok(next) == MarkSucceeded(s, id, now)
              && outcome == CallbackOutcome(Success, Some(Answered(id, PaidRow(s.payments[id], now))))
            else next == s && outcome == CallbackOutcome(InvalidState, Some(Answered(id, s.payments[id])))
  {
    SuccessIsHonoured(s, id, now);
  }

  // ---------------------------------------------------------------- the replies

  function Found(status: OutcomeStatus, id: Id, p: Payment): CallbackOutcome {
    CallbackOutcome(status, Some(Answered(id, p)))
  }

  lemma UnmatchedReply(s: State, r: Request, digest: string, now: Moment)
    requires Fresh(s, r)
    requires var c := Parse(r).callback; FindPayment(s, c).Some? ==> !AmountOk(c, s.payments[FindPayment(s, c).value])
    ensures var c := Parse(r).callback;
            Refused(s, Deliver(s, r, digest, now),
                    Answer(r, c.action, match FindPayment(s, c)
                                        case None => CallbackOutcome(UnknownPayment, None)
                                        case Some(id) => Found(AmountMismatch, id, s.payments[id])))
  {
    Unmatched(s, Parse(r).callback, now);
    FirstDelivery(s, r, digest, now);
  }

  lemma CancelReply(s: State, r: Request, digest: string, now: Moment, id: Id)
    requires Fresh(s, r)
    requires var c := Parse(r).callback;
             c.action == Cancel && FindPayment(s, c) == Some(id) && AmountOk(c, s.payments[id])
    ensures var d, p := Deliver(s, r, digest, now), s.payments[id];
            if IsOpen(p.status)
            then Moved(d, ClosePayment(s, id, Canceled, Parse(r).callback.reason, now),
                       Answer(r, Cancel, Found(Success, id, ClosedRow(p, Canceled, Parse(r).callback.reason, now))))
            else Refused(s, d, Answer(r, Cancel, Found(InvalidState, id, p)))
  {
    Canceling(s, Parse(r).callback, now, id);
    FirstDelivery(s, r, digest, now);
  }

  lemma OpenReply(s: State, r: Request, digest: string, now: Moment, id: Id)
    requires Fresh(s, r)
    requires var c := Parse(r).callback;
             c.action == Create && FindPayment(s, c) == Some(id) && AmountOk(c, s.payments[id])
    ensures var d, p, c := Deliver(s, r, digest, now), s.payments[id], Parse(r).callback;
            if p.status != Created then Refused(s, d, Answer(r, Create, Found(InvalidState, id, p)))
            else if TakenByOther(s, c.provider, StoredTxn(c.txn), id) then d == Raised
            else Moved(d, MarkPending(s, id, StoredTxn(c.txn), now),
                       Answer(r, Create, Found(Success, id, OpenedRow(p, StoredTxn(c.txn), now))))
  {
    Opening(s, Parse(r).callback, now, id);
    FirstDelivery(s, r, digest, now);
  }

  lemma ConfirmReply(s: State, r: Request, digest: string, now: Moment, id: Id)
    requires Inv(s) && Fresh(s, r)
    requires var c := Parse(r).callback;
             c.action == Confirm && FindPayment(s, c) == Some(id) && AmountOk(c, s.payments[id])
    ensures var d, p := Deliver(s, r, digest, now), s.payments[id];
            if p.status in {Created, Pending, Expired}
            then Moved(d, MarkSucceeded(s, id, now), Answer(r, Confirm, Found(Success, id, PaidRow(p, now))))
            else Refused(s, d, Answer(r, Confirm, Found(InvalidState, id, p)))
  {
    Confirmed(s, Parse(r).callback, now, id);
    FirstDelivery(s, r, digest, now);
  }

  // ---------------------------------------------------------------- Payme

  /** A PerformTransaction or CancelTransaction of a transaction nobody has. */
  lemma PaymeUnknown(s: State, r: Request, digest: string, now: Moment)
    requires Fresh(s, r) && r.PaymeCall? && r.rpcMethod in {PerformTransaction, CancelTransaction}
    requires Named(s, Payme, None, r.txn).None?
    ensures Refused(s, Deliver(s, r, digest, now), PaymeError(-31003, r.rpcId))
  {
    UnmatchedReply(s, r, digest, now);
  }

  lemma PerformKnown(s: State, r: Request, digest: string, now: Moment, id: Id)
    requires Inv(s) && Fresh(s, r) && r.PaymeCall? && r.rpcMethod == PerformTransaction
    requires Named(s, Payme, None, r.txn) == Some(id)
    ensures var d := Deliver(s, r, digest, now);
            if s.payments[id].status in {Created, Pending, Expired}
            then Moved(d, MarkSucceeded(s, id, now), PaymeAnswer(Performed(id, Millis(Some(now)), 2), r.rpcId))
            else Refused(s, d, PaymeError(-31008, r.rpcId))
  {
    assert Parse(r).callback == Callback(Payme, r.txn, Confirm, None, None, None, true);
    ConfirmReply(s, r, digest, now, id);
  }

  /** PerformTransaction: paid exactly if the transaction is known and open, or expired before. */
  lemma PaymePerform(s: State, r: Request, digest: string, now: Moment)
    requires Inv(s) && Fresh(s, r) && r.PaymeCall? && r.rpcMethod == PerformTransaction
    ensures var d, found := Deliver(s, r, digest, now), Named(s, Payme, None, r.txn);
            match found
            case None => Refused(s, d, PaymeError(-31003, r.rpcId))
            case Some(id) =>
              if s.payments[id].status in {Created, Pending, Expired}
              then Moved(d, MarkSucceeded(s, id, now), PaymeAnswer(Performed(id, Millis(Some(now)), 2), r.rpcId))
              else Refused(s, d, PaymeError(-31008, r.rpcId))
  {
    match Named(s, Payme, None, r.txn)
    case Some(id) => PerformKnown(s, r, digest, now, id);
    case None => PaymeUnknown(s, r, digest, now);
  }

  lemma CancelKnown(s: State, r: Request, digest: string, now: Moment, id: Id)
    requires Inv(s) && Fresh(s, r) && r.PaymeCall? && r.rpcMethod == CancelTransaction
    requires Named(s, Payme, None, r.txn) == Some(id)
    ensures var d := Deliver(s, r, digest, now);
            if IsOpen(s.payments[id].status)
            then Moved(d, ClosePayment(s, id, Canceled, r.reason, now),
                       PaymeAnswer(Cancelled(id, Millis(Some(now)), -1), r.rpcId))
            else Refused(s, d, PaymeError(-31008, r.rpcId))
  {
    assert Parse(r).callback == Callback(Payme, r.txn, Cancel, None, None, r.reason, true);
    CancelReply(s, r, digest, now, id);
  }

  /** CancelTransaction: canceled exactly if the transaction is known and open; a paid one stays paid. */
  lemma PaymeCancel(s: State, r: Request, digest: string, now: Moment)
    requires Inv(s) && Fresh(s, r) && r.PaymeCall? && r.rpcMethod == CancelTransaction
    ensures var d, found := Deliver(s, r, digest, now), Named(s, Payme, None, r.txn);
            match found
            case None => Refused(s, d, PaymeError(-31003, r.rpcId))
            case Some(id) =>
              if IsOpen(s.payments[id].status)
              then Moved(d, ClosePayment(s, id, Canceled, r.reason, now),
                         PaymeAnswer(Cancelled(id, Millis(Some(now)), -1), r.rpcId))
              else Refused(s, d, PaymeError(-31008, r.rpcId))
  {
    match Named(s, Payme, None, r.txn)
    case Some(id) => CancelKnown(s, r, digest, now, id);
    case None => PaymeUnknown(s, r, digest, now);
  }

  /** Whom a CreateTransaction finds, and when its amount is right. */
  lemma CreateMatches(s: State, r: Request)
    requires AllStamped(s.payments) && r.PaymeCall? && r.rpcMethod == CreateTransaction && ChangesState(r)
    ensures var c, found := Parse(r).callback, Named(s, Payme, r.account, r.txn);
            && c.action == Create && c.provider == Payme && c.txn == r.txn && FindPayment(s, c) == found
            && (found.Some? ==>
                  var money := s.payments[found.value].money;
                  AmountOk(c, s.payments[found.value]) <==>
                    money.currency == "UZS" && r.tiyin == Integer(100 * money.amount))
  {
    var found := Named(s, Payme, r.account, r.txn);
    if found.Some? {
      assert StampsAgree(s.payments[found.value]);
      PaymeAmountRoundTrip(s.payments[found.value].money, r.tiyin);
    }
  }

  /** A CreateTransaction for a payment with the right amount. */
  lemma CreateMatched(s: State, r: Request, digest: string, now: Moment, id: Id)
    requires Inv(s) && Fresh(s, r) && r.PaymeCall? && r.rpcMethod == CreateTransaction
    requires Named(s, Payme, r.account, r.txn) == Some(id) && AmountOk(Parse(r).callback, s.payments[id])
    ensures var d, p := Deliver(s, r, digest, now), s.payments[id];
            if p.status != Created then Refused(s, d, PaymeError(-31008, r.rpcId))
            else if TakenByOther(s, Payme, StoredTxn(r.txn), id) then d == Raised
            else Moved(d, MarkPending(s, id, StoredTxn(r.txn), now),
                       PaymeAnswer(Opened(Millis(Some(now)), id, 1), r.rpcId))
  {
    CreateMatches(s, r);
    OpenReply(s, r, digest, now, id);
  }

  lemma CreateUnmatched(s: State, r: Request, digest: string, now: Moment)
    requires Inv(s) && Fresh(s, r) && r.PaymeCall? && r.rpcMethod == CreateTransaction
    requires var found := Named(s, Payme, r.account, r.txn);
             found.Some? ==> !AmountOk(Parse(r).callback, s.payments[found.value])
    ensures Refused(s, Deliver(s, r, digest, now),
                    PaymeError(if Named(s, Payme, r.account, r.txn).None? then -31050 else -31001, r.rpcId))
  {
    CreateMatches(s, r);
    UnmatchedReply(s, r, digest, now);
  }

  /** CreateTransaction: opened exactly if the payment is new, the tiyin fit its sum and the id is free. */
  lemma PaymeCreate(s: State, r: Request, digest: string, now: Moment)
    requires Inv(s) && Fresh(s, r) && r.PaymeCall? && r.rpcMethod == CreateTransaction
    ensures var d, found := Deliver(s, r, digest, now), Named(s, Payme, r.account, r.txn);
            match found
            case None => Refused(s, d, PaymeError(-31050, r.rpcId))
            case Some(id) =>
              var p := s.payments[id];
              if p.money.currency != "UZS" || r.tiyin != Integer(100 * p.money.amount)
              then Refused(s, d, PaymeError(-31001, r.rpcId))
              else if p.status != Created then Refused(s, d, PaymeError(-31008, r.rpcId))
              else if TakenByOther(s, Payme, StoredTxn(r.txn), id) then d == Raised
              else Moved(d, MarkPending(s, id, StoredTxn(r.txn), now),
                         PaymeAnswer(Opened(Millis(Some(now)), id, 1), r.rpcId))
  {
    CreateMatches(s, r);
    var found := Named(s, Payme, r.account, r.txn);
    if found.Some? && AmountOk(Parse(r).callback, s.payments[found.value]) {
      CreateMatched(s, r, digest, now, found.value);
    } else {
      CreateUnmatched(s, r, digest, now);
    }
  }

  // ---------------------------------------------------------------- a reason that cannot be reported

  /** A request of the provider about a transaction. */
  predicate AboutTransaction(r: Request, rpcMethod: RpcMethod, txn: string) {
    r.PaymeCall? && r.rpcMethod == rpcMethod && r.txn == Some(txn) && Authentic(r)
  }

  lemma CancelCloses(s: State, r: Request, digest: string, now: Moment, txn: string, id: Id)
    requires UniqueTxns(s.payments) && txn != "" && AboutTransaction(r, CancelTransaction, txn) && Fresh(s, r)
    requires TxnRow(s.payments, Payme, txn, id) && IsOpen(s.payments[id].status)
    ensures var d := Deliver(s, r, digest, now);
            && d.Replied? && d.state.providers == s.providers
            && d.state.payments == s.payments[id := ClosedRow(s.payments[id], Canceled, r.reason, now)]
  {
    var c := Parse(r).callback;
    assert FindPayment(s, c) == ByTxn(s.payments, Payme, txn) == Some(id);
    FirstDelivery(s, r, digest, now);
  }

  lemma CancelIsFresh(s: State, create: Request, cancel: Request, digest: string, now: Moment, id: Id)
    requires OpensTransaction(s, create, id) && create.txn.value != ""
    requires AboutTransaction(cancel, CancelTransaction, create.txn.value) && LedgerKeyOf(cancel) !in s.ledger
    ensures var first := Deliver(s, create, digest, now);
            first.Replied? && Fresh(first.state, cancel) && TxnRow(first.state.payments, Payme, create.txn.value, id)
  {
    FirstCreateOpens(s, create, digest, now, id);
  }

  /**
   CreateTransaction, CancelTransaction with some reason, CheckTransaction: the last one is answered
   exactly if the reason does not look numeric or can be converted. The exception leaves the state
   alone, so every further CheckTransaction ends the same way.
   */
  lemma ReasonDecidesStatus(s: State, create: Request, cancel: Request, status: Request, digest: string,
                            created: Moment, canceled: Moment, checked: Moment, id: Id)
    requires Inv(s) && OpensTransaction(s, create, id) && create.txn.value != ""
    requires AboutTransaction(cancel, CancelTransaction, create.txn.value) && LedgerKeyOf(cancel) !in s.ledger
    requires cancel.reason.Some? && AboutTransaction(status, CheckTransaction, create.txn.value)
    ensures var first := Deliver(s, create, digest, created);
            && first.Replied?
            && var second := Deliver(first.state, cancel, digest, canceled);
               && second.Replied?
               && (Deliver(second.state, status, digest, checked).Replied? <==>
                   (LooksNumeric(cancel.reason.value) ==> Convertible(cancel.reason.value)))
  {
    CancelIsFresh(s, create, cancel, digest, created, id);
    FirstCreateOpens(s, create, digest, created, id);
    DeliverKeeps(s, create, digest, created);
    var first := Deliver(s, create, digest, created).state;
    CancelCloses(first, cancel, digest, canceled, create.txn.value, id);
    DeliverKeeps(first, cancel, digest, canceled);
    var second := Deliver(first, cancel, digest, canceled).state;
    StatusAfterCancel(second, status, digest, checked, create.txn.value, id, cancel.reason.value);
  }

  lemma StatusAfterCancel(s: State, r: Request, digest: string, now: Moment, txn: string, id: Id, reason: string)
    requires Inv(s) && txn != "" && AboutTransaction(r, CheckTransaction, txn) && Payme in s.providers
    requires TxnRow(s.payments, Payme, txn, id) && s.payments[id].status == Canceled
    requires s.payments[id].failureCode == Some(reason)
    ensures Deliver(s, r, digest, now).Replied? <==> (LooksNumeric(reason) ==> Convertible(reason))
  {
    StatusReportIsConsistent(s, r, digest, now, id);
  }

  ghost predicate Reachable(s: State) {
    exists plans, providers, steps :: s == Run(Empty(plans, providers), steps)
  }

  lemma ReachableNext(s: State, step: Step)
    requires Reachable(s)
    ensures Reachable(Apply(s, step))
  {
    var plans, providers, steps :| s == Run(Empty(plans, providers), steps);
    assert (steps + [step])[..|steps|] == steps;
    assert Apply(s, step) == Run(Empty(plans, providers), steps + [step]);
  }

  lemma ReachableKeeps(s: State)
    requires Reachable(s)
    ensures Inv(s)
  {
    var plans, providers, steps :| s == Run(Empty(plans, providers), steps);
    EmptyKeeps(plans, providers);
    RunKeeps(Empty(plans, providers), steps);
  }

  lemma ReachableByDelivery(s: State, r: Request, digest: string, now: Moment)
    requires Reachable(s)
    ensures Reachable(StateAfter(s, Deliver(s, r, digest, now)))
  {
    ReachableNext(s, Receive(r, digest, now));
  }

  const CREATE := PaymeCall("1", CreateTransaction, Some("t"), Some(7), Integer(100000), None, Genuine)
  const CANCEL := PaymeCall("2", CancelTransaction, Some("t"), None, Absent, Some("--5"), Genuine)
  const STATUS := PaymeCall("3", CheckTransaction, Some("t"), None, Absent, None, Genuine)

  /** A payment of 1000 sums is taken. */
  lemma TakeStep() returns (s: State)
    ensures Reachable(s) && OpensTransaction(s, CREATE, 7) && s.ledger == map[]
  {
    var start := Empty(map[], {Payme});
    var take := TakePayment(0, Money(1000, "UZS"), "shop", "a", Payme, "k", 7, Some("url"));
    assert start == Run(start, []);
    ReachableNext(start, take);
    assert ByKey(start.payments, 0, CallerKey("k")).None?;
    PaymeAmountRoundTrip(Money(1000, "UZS"), Integer(100000));
    s := Apply(start, take);
  }

  lemma CreateStep(s: State, now: Moment) returns (t: State)
    requires Reachable(s) && OpensTransaction(s, CREATE, 7) && s.ledger == map[]
    ensures Reachable(t) && Fresh(t, CANCEL)
    ensures TxnRow(t.payments, Payme, "t", 7) && IsOpen(t.payments[7].status)
  {
    CancelIsFresh(s, CREATE, CANCEL, "", now, 7);
    FirstCreateOpens(s, CREATE, "", now, 7);
    ReachableByDelivery(s, CREATE, "", now);
    t := Deliver(s, CREATE, "", now).state;
  }

  lemma CancelStep(s: State, now: Moment) returns (t: State)
    requires Reachable(s) && Fresh(s, CANCEL)
    requires TxnRow(s.payments, Payme, "t", 7) && IsOpen(s.payments[7].status)
    ensures Reachable(t) && Payme in t.providers
    ensures TxnRow(t.payments, Payme, "t", 7) && t.payments[7].status == Canceled
    ensures t.payments[7].failureCode == Some("--5")
  {
    ReachableKeeps(s);
    CancelCloses(s, CANCEL, "", now, "t", 7);
    ReachableByDelivery(s, CANCEL, "", now);
    t := Deliver(s, CANCEL, "", now).state;
  }

  lemma StatusRaises(s: State, now: Moment)
    requires Inv(s) && Payme in s.providers
    requires TxnRow(s.payments, Payme, "t", 7) && s.payments[7].status == Canceled
    requires s.payments[7].failureCode == Some("--5")
    ensures AsksStatusOf(s, STATUS, 7) && Deliver(s, STATUS, "", now) == Raised
  {
    TwoDashes();
    StatusAfterCancel(s, STATUS, "", now, "t", 7, "--5");
  }

  /** A reachable state in which a CheckTransaction of a known transaction ends in an exception. */
  lemma UnreadableReason(now: Moment) returns (s: State)
    ensures Reachable(s) && AsksStatusOf(s, STATUS, 7) && Deliver(s, STATUS, "", now) == Raised
  {
    s := TakeStep();
    s := CreateStep(s, now);
    s := CancelStep(s, now);
    ReachableKeeps(s);
    StatusRaises(s, now);
  }

  // ---------------------------------------------------------------- Click

  /** The form's amount is the payment's, in whole sums. */
  predicate SumIs(sum: DecimalAmount, money: Money) {
    money.currency == "UZS" && sum == Finite(money.amount as real)
  }

  /** Whom a Prepare or a successful Complete finds, and when its amount is right. */
  lemma ClickMatches(s: State, r: Request)
    requires AllStamped(s.payments) && r.ClickForm? && ChangesState(r)
    requires r.actionCode == Prepare || (r.actionCode == Complete && (r.error.None? || r.error.value >= 0))
    ensures var c, found := Parse(r).callback, Named(s, Click, r.order, Some(r.clickTransId));
            && c.action == (if r.actionCode == Prepare then Create else Confirm)
            && c.provider == Click && c.txn == Some(r.clickTransId) && FindPayment(s, c) == found
            && (found.Some? ==> (AmountOk(c, s.payments[found.value]) <==> SumIs(r.sum, s.payments[found.value].money)))
  {
    var found := Named(s, Click, r.order, Some(r.clickTransId));
    if found.Some? {
      assert StampsAgree(s.payments[found.value]);
      ClickAmountRoundTrip(r, s.payments[found.value].money);
    }
  }

  lemma ClickUnmatched(s: State, r: Request, digest: string, now: Moment)
    requires Inv(s) && Fresh(s, r) && r.ClickForm?
    requires r.actionCode == Prepare || (r.actionCode == Complete && (r.error.None? || r.error.value >= 0))
    requires var found := Named(s, Click, r.order, Some(r.clickTransId));
             found.Some? ==> !SumIs(r.sum, s.payments[found.value].money)
    ensures var found := Named(s, Click, r.order, Some(r.clickTransId));
            Refused(s, Deliver(s, r, digest, now), ClickBody(r, found, if found.None? then -5 else -2))
  {
    ClickMatches(s, r);
    UnmatchedReply(s, r, digest, now);
  }

  /** A Complete without an error for a payment with the right amount. */
  lemma CompleteMatched(s: State, r: Request, digest: string, now: Moment, id: Id)
    requires Inv(s) && Fresh(s, r) && r.ClickForm? && r.actionCode == Complete
    requires r.error.None? || r.error.value >= 0
    requires Named(s, Click, r.order, Some(r.clickTransId)) == Some(id) && SumIs(r.sum, s.payments[id].money)
    ensures var d, p := Deliver(s, r, digest, now), s.payments[id];
            if p.status in {Created, Pending, Expired}
            then Moved(d, MarkSucceeded(s, id, now), ClickBody(r, Some(id), 0))
            else Refused(s, d, ClickBody(r, Some(id), -4))
  {
    ClickMatches(s, r);
    ConfirmReply(s, r, digest, now, id);
  }

  /** Complete: paid exactly if the amount is right and the payment open, or expired before. */
  lemma ClickComplete(s: State, r: Request, digest: string, now: Moment)
    requires Inv(s) && Fresh(s, r) && r.ClickForm? && r.actionCode == Complete
    requires r.error.None? || r.error.value >= 0
    ensures var d, found := Deliver(s, r, digest, now), Named(s, Click, r.order, Some(r.clickTransId));
            match found
            case None => Refused(s, d, ClickBody(r, None, -5))
            case Some(id) =>
              var p := s.payments[id];
              if !SumIs(r.sum, p.money) then Refused(s, d, ClickBody(r, found, -2))
              else if p.status in {Created, Pending, Expired}
              then Moved(d, MarkSucceeded(s, id, now), ClickBody(r, found, 0))
              else Refused(s, d, ClickBody(r, found, -4))
  {
    var found := Named(s, Click, r.order, Some(r.clickTransId));
    if found.Some? && SumIs(r.sum, s.payments[found.value].money) {
      CompleteMatched(s, r, digest, now, found.value);
    } else {
      ClickUnmatched(s, r, digest, now);
    }
  }

  lemma ClickAmountRoundTrip(r: Request, money: Money)
    requires r.ClickForm? && Parse(r).Recognised? && Parse(r).callback.amount.Some? && money.amount > 0
    ensures Parse(r).callback.amount.value == money <==> SumIs(r.sum, money)
  {
    if SumIs(r.sum, money) {
      assert (money.amount as real).Floor == money.amount;
    }
  }

  lemma ClickFailureParsed(s: State, r: Request)
    requires Fresh(s, r) && r.ClickForm? && r.actionCode == Complete && r.error.Some? && r.error.value < 0
    ensures var c := Parse(r).callback;
            && c.action == Cancel && c.amount.None? && c.reason == Some(IntText(r.error.value))
            && FindPayment(s, c) == Named(s, Click, r.order, Some(r.clickTransId))
  {
    var c := Parse(r).callback;
    assert c == Callback(Click, Some(r.clickTransId), Cancel, r.order, None, c.reason, true);
  }

  lemma ClickFailureKnown(s: State, r: Request, digest: string, now: Moment, id: Id)
    requires Inv(s) && Fresh(s, r) && r.ClickForm? && r.actionCode == Complete && r.error.Some? && r.error.value < 0
    requires Named(s, Click, r.order, Some(r.clickTransId)) == Some(id)
    ensures var d := Deliver(s, r, digest, now);
            if IsOpen(s.payments[id].status)
            then Moved(d, ClosePayment(s, id, Canceled, Some(IntText(r.error.value)), now),
                       ClickBody(r, Some(id), -9))
            else Refused(s, d, ClickBody(r, Some(id), -4))
  {
    ClickFailureParsed(s, r);
    CancelReply(s, r, digest, now, id);
  }

  /** A Complete that reports Click's own failure cancels an open payment, whatever amount it carries. */
  lemma ClickFailure(s: State, r: Request, digest: string, now: Moment)
    requires Inv(s) && Fresh(s, r) && r.ClickForm? && r.actionCode == Complete && r.error.Some? && r.error.value < 0
    ensures var d, found := Deliver(s, r, digest, now), Named(s, Click, r.order, Some(r.clickTransId));
            match found
            case None => Refused(s, d, ClickBody(r, None, -5))
            case Some(id) =>
              if IsOpen(s.payments[id].status)
              then Moved(d, ClosePayment(s, id, Canceled, Some(IntText(r.error.value)), now),
                         ClickBody(r, found, -9))
              else Refused(s, d, ClickBody(r, found, -4))
  {
    match Named(s, Click, r.order, Some(r.clickTransId))
    case Some(id) => ClickFailureKnown(s, r, digest, now, id);
    case None =>
      ClickFailureParsed(s, r);
      UnmatchedReply(s, r, digest, now);
  }

  /** A Prepare for a payment with the right amount. */
  lemma PrepareMatched(s: State, r: Request, digest: string, now: Moment, id: Id)
    requires Inv(s) && Fresh(s, r) && r.ClickForm? && r.actionCode == Prepare
    requires Named(s, Click, r.order, Some(r.clickTransId)) == Some(id) && SumIs(r.sum, s.payments[id].money)
    ensures var d, p := Deliver(s, r, digest, now), s.payments[id];
            if p.status != Created then Refused(s, d, ClickBody(r, Some(id), -4))
            else if TakenByOther(s, Click, r.clickTransId, id) then d == Raised
            else Moved(d, MarkPending(s, id, r.clickTransId, now), ClickBody(r, Some(id), 0))
  {
    ClickMatches(s, r);
    OpenReply(s, r, digest, now, id);
  }

  /** Prepare: opened exactly if the payment is new and the amount right. */
  lemma ClickPrepare(s: State, r: Request, digest: string, now: Moment)
    requires Inv(s) && Fresh(s, r) && r.ClickForm? && r.actionCode == Prepare
    ensures var d, found := Deliver(s, r, digest, now), Named(s, Click, r.order, Some(r.clickTransId));
            match found
            case None => Refused(s, d, ClickBody(r, None, -5))
            case Some(id) =>
              var p := s.payments[id];
              if !SumIs(r.sum, p.money) then Refused(s, d, ClickBody(r, found, -2))
              else if p.status != Created then Refused(s, d, ClickBody(r, found, -4))
              else if TakenByOther(s, Click, r.clickTransId, id) then d == Raised
              else Moved(d, MarkPending(s, id, r.clickTransId, now), ClickBody(r, found, 0))
  {
    var found := Named(s, Click, r.order, Some(r.clickTransId));
    if found.Some? && SumIs(r.sum, s.payments[found.value].money) {
      PrepareMatched(s, r, digest, now, found.value);
    } else {
      ClickUnmatched(s, r, digest, now);
    }
  }

  // ---------------------------------------------------------------- Stripe

  lemma StripeParsed(s: State, r: Request)
    requires ChangesState(r) && r.StripeEvent?
    ensures var c := Parse(r).callback;
            && FindPayment(s, c) == Named(s, Stripe, r.order, r.eventId)
            && match r.kind
               case SessionPaid(total) => c.action == Confirm && c.amount == total && total.Some?
               case _ => c.action == Cancel && c.amount.None? && c.reason.None?
  {
  }

  /** A paid session pays the payment it names if the amount is right and the payment open, or expired before. */
  lemma StripePaid(s: State, r: Request, digest: string, now: Moment)
    requires Inv(s) && Fresh(s, r) && r.StripeEvent? && r.kind.SessionPaid?
    ensures var d, found := Deliver(s, r, digest, now), Named(s, Stripe, r.order, r.eventId);
            if found.Some? && r.kind.total == Some(s.payments[found.value].money)
               && s.payments[found.value].status in {Created, Pending, Expired}
            then Moved(d, MarkSucceeded(s, found.value, now), StripeReceived)
            else Refused(s, d, StripeReceived)
  {
    StripeParsed(s, r);
    var found := Named(s, Stripe, r.order, r.eventId);
    if found.Some? && r.kind.total == Some(s.payments[found.value].money) {
      ConfirmReply(s, r, digest, now, found.value);
    } else {
      UnmatchedReply(s, r, digest, now);
    }
  }

  /** An expired session cancels the open payment it names; everything else is acknowledged. */
  lemma StripeExpired(s: State, r: Request, digest: string, now: Moment)
    requires Inv(s) && Fresh(s, r) && r.StripeEvent? && r.kind.SessionExpired?
    ensures var d, found := Deliver(s, r, digest, now), Named(s, Stripe, r.order, r.eventId);
            if found.Some? && IsOpen(s.payments[found.value].status)
            then Moved(d, ClosePayment(s, found.value, Canceled, None, now), StripeReceived)
            else Refused(s, d, StripeReceived)
  {
    StripeParsed(s, r);
    var found := Named(s, Stripe, r.order, r.eventId);
    if found.Some? {
      CancelReply(s, r, digest, now, found.value);
    } else {
      UnmatchedReply(s, r, digest, now);
    }
  }
}
