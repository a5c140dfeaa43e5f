/**
 The provider dialects: how Payme, Click and Stripe requests become one normalised callback, and
 how an outcome is answered in the dialect it came from.

 The outcome of the signature check is an input, and a merchant reference is given after UUID
 parsing.
 */
module Adapters {
  import opened Base
  import opened Calendar
  import opened Billing
  import opened Numerals

  const LEDGER_CURRENCY := "UZS"
  const TIYIN_PER_SUM := 100

  /** A JSON number as `params.get("amount", 0)` finds it. */
  datatype JsonAmount = Absent | Integer(n: int) | NotAnInteger

  /** A Click amount as Decimal reads it. */
  datatype DecimalAmount = Unparsable | Finite(value: real) | NotANumber | PlusInfinity | MinusInfinity

  /** Comparing digests raises for text outside ASCII; that exception leaves the adapter. */
  datatype SignatureCheck = Genuine | Forged | Raises

  datatype RpcMethod =
    | CheckPerformTransaction
    | CreateTransaction
    | PerformTransaction
    | CancelTransaction
    | CheckTransaction
    | OtherMethod

  /** Action 0 and action 1 of the SHOP-API. */
  datatype ClickAction = Prepare | Complete | OtherAction

  datatype Request =
    | PaymeCall(rpcId: string, rpcMethod: RpcMethod, txn: Option<string>, account: Option<Id>,
                tiyin: JsonAmount, reason: Option<string>, signature: SignatureCheck)
    | ClickForm(clickTransId: string, merchantTransId: string, order: Option<Id>, prepareId: string,
                actionCode: ClickAction, sum: DecimalAmount, error: Option<int>, signature: SignatureCheck)
    | StripeEvent(eventId: Option<string>, kind: StripeKind, order: Option<Id>, signature: SignatureCheck)

  predicate Authentic(r: Request) {
    r.signature == Genuine
  }

  /** A paid session carries its total, None when Stripe's amount or currency is malformed. */
  datatype StripeKind = SessionPaid(total: Option<Money>) | SessionExpired | Unhandled

  datatype Callback = Callback(
    provider: Provider,
    txn: Option<string>,
    action: Action,
    reference: Option<Id>,
    amount: Option<Money>,
    reason: Option<string>,
    authentic: bool)

  /** Unrecognised is the verification error of the dialect; any other exception escapes. */
  datatype Parsed = Recognised(callback: Callback) | Unrecognised | Escaped

  // ---------------------------------------------------------------- amounts

  function ToTiyin(money: Money): Outcome<int> {
    if money.currency != LEDGER_CURRENCY then Err(ProviderFailure) else Ok(money.amount * TIYIN_PER_SUM)
  }

  function MinorUnitsFromTiyin(tiyin: int): Outcome<int> {
    if tiyin < 0 || tiyin % TIYIN_PER_SUM != 0 then Err(ProviderFailure) else Ok(tiyin / TIYIN_PER_SUM)
  }

  /** An absent, malformed or sub-sum amount becomes zero, which reconciles with no payment. */
  function PaymeAmount(tiyin: JsonAmount): Money {
    match tiyin
    case Integer(n) =>
      (match MinorUnitsFromTiyin(n)
       case Ok(units) => Money(units, LEDGER_CURRENCY)
       case Err(_) => Money(0, LEDGER_CURRENCY))
    case _ => Money(0, LEDGER_CURRENCY)
  }

  /** None is an exception that is not a provider error: it leaves the adapter. */
  function MinorUnitsFromSum(sum: DecimalAmount): Option<Outcome<int>> {
    match sum
    case Unparsable => Some(Err(ProviderFailure))
    case MinusInfinity => Some(Err(ProviderFailure))
    case NotANumber => None
    case PlusInfinity => None
    case Finite(v) =>
      if v < 0.0 || v != v.Floor as real then Some(Err(ProviderFailure)) else Some(Ok(v.Floor))
  }

  /** Only the amount a payment was checked out with comes back as that payment's amount. */
  lemma PaymeAmountRoundTrip(money: Money, tiyin: JsonAmount)
    requires money.amount > 0
    ensures PaymeAmount(tiyin) == money
            <==> ToTiyin(money).Ok? && tiyin == Integer(ToTiyin(money).value)
  {
  }

  // ---------------------------------------------------------------- requests

  function PaymeAction(rpcMethod: RpcMethod): Option<Action> {
    match rpcMethod
    case CheckPerformTransaction => Some(Check)
    case CreateTransaction => Some(Create)
    case PerformTransaction => Some(Confirm)
    case CancelTransaction => Some(Cancel)
    case CheckTransaction => Some(Status)
    case OtherMethod => None
  }

  /** Confirm, cancel and status are keyed by Payme's transaction id: no account, no amount. */
  function ParsePayme(r: Request): Parsed
    requires r.PaymeCall?
  {
    match PaymeAction(r.rpcMethod)
    case None => Unrecognised
    case Some(_) =>
      if r.signature == Raises then Escaped
      else Recognised(PaymeCallback(r, PaymeAction(r.rpcMethod).value))
  }

  function PaymeCallback(r: Request, action: Action): Callback
    requires r.PaymeCall?
  {
    match action
    case Check => Callback(Payme, None, Check, r.account, Some(PaymeAmount(r.tiyin)), None, Authentic(r))
    case Create => Callback(Payme, r.txn, Create, r.account, Some(PaymeAmount(r.tiyin)), None, Authentic(r))
    case _ => Callback(Payme, r.txn, action, None, None, if action == Cancel then r.reason else None, Authentic(r))
  }

  function IntText(n: int): string
    decreases if n < 0 then 1 - n else n
  {
    if n < 0 then "-" + IntText(-n)
    else if n < 10 then ["0123456789"[n]]
    else IntText(n / 10) + ["0123456789"[n % 10]]
  }

  lemma DigitReads(d: int)
    requires 0 <= d < 10
    ensures var c := "0123456789"[d]; IsDecimal(c) && DigitValue(c) == d && c != '-'
  {
    assert DECIMAL_ZEROS[0] == 0x30;
    assert "0123456789"[d] as int == 0x30 + d;
  }

  lemma {:induction false} NaturalReads(n: nat)
    ensures AllDecimal(IntText(n)) && IntText(n) != "" && IntText(n)[0] != '-' && NumberOf(IntText(n)) == n
    decreases n
  {
    if n < 10 {
      DigitReads(n);
      assert IntText(n)[..0] == "";
    } else {
      NaturalReads(n / 10);
      DigitReads(n % 10);
      assert IntText(n)[..|IntText(n)| - 1] == IntText(n / 10);
    }
  }

  /** A code that is written as a text reads back as that code. */
  lemma IntTextReads(n: int)
    requires |IntText(if n < 0 then -n else n)| <= MAX_DIGITS
    ensures ToInt(IntText(n)) == Some(n)
  {
    var size := if n < 0 then -n else n;
    NaturalReads(size);
    if n < 0 {
      assert IntText(n)[1..] == IntText(size);
      SignedReads(IntText(n));
    } else {
      UnsignedReads(IntText(size));
    }
  }

  /** A Complete that reports an error is Click's failed payment: a cancel with nothing to reconcile. */
  function ParseClick(r: Request): Parsed
    requires r.ClickForm?
  {
    if r.actionCode != Prepare && r.actionCode != Complete then Unrecognised
    else
      match MinorUnitsFromSum(r.sum)
      case None => Escaped
      case Some(units) =>
        if r.signature == Raises then Escaped else
        var amount := Money(if units.Ok? then units.value else 0, LEDGER_CURRENCY);
        if r.actionCode == Prepare then
          Recognised(Callback(Click, Some(r.clickTransId), Create, r.order, Some(amount), None, Authentic(r)))
        else if r.error.Some? && r.error.value < 0 then
          Recognised(Callback(Click, Some(r.clickTransId), Cancel, r.order, None,
                              Some(IntText(r.error.value)), Authentic(r)))
        else
          Recognised(Callback(Click, Some(r.clickTransId), Confirm, r.order, Some(amount), None, Authentic(r)))
  }

  function ParseStripe(r: Request): Parsed
    requires r.StripeEvent?
  {
    if r.signature == Raises then Escaped else
    match r.kind
    case SessionPaid(None) => Escaped
    case SessionPaid(total) => Recognised(Callback(Stripe, r.eventId, Confirm, r.order, total, None, Authentic(r)))
    case SessionExpired => Recognised(Callback(Stripe, r.eventId, Cancel, r.order, None, None, Authentic(r)))
    case Unhandled => Recognised(Callback(Stripe, None, Status, None, None, None, Authentic(r)))
  }

  function Parse(r: Request): Parsed {
    match r
    case PaymeCall(_, _, _, _, _, _, _) => ParsePayme(r)
    case ClickForm(_, _, _, _, _, _, _, _) => ParseClick(r)
    case StripeEvent(_, _, _, _) => ParseStripe(r)
  }

  function RequestProvider(r: Request): Provider {
    match r
    case PaymeCall(_, _, _, _, _, _, _) => Payme
    case ClickForm(_, _, _, _, _, _, _, _) => Click
    case StripeEvent(_, _, _, _) => Stripe
  }

  /** The provider knows what is asked for. */
  predicate Known(r: Request) {
    match r
    case PaymeCall(_, rpcMethod, _, _, _, _, _) => PaymeAction(rpcMethod).Some?
    case ClickForm(_, _, _, _, actionCode, _, _, _) => actionCode == Prepare || actionCode == Complete
    case StripeEvent(_, _, _, _) => true
  }

  /** An amount whose conversion raises something else than a provider error, or is not caught. */
  predicate AmountRaises(r: Request) {
    match r
    case PaymeCall(_, _, _, _, _, _, _) => false
    case ClickForm(_, _, _, _, _, sum, _, _) => sum == NotANumber || sum == PlusInfinity
    case StripeEvent(_, kind, _, _) => kind == SessionPaid(None)
  }

  /**
   A request leaves the dialect of its provider exactly when it is known and its amount or its
   signature check raises; every other request is recognised or refused as unknown.
   */
  lemma ParseEscapesExactly(r: Request)
    ensures Parse(r).Escaped? <==> Known(r) && (AmountRaises(r) || r.signature == Raises)
    ensures Parse(r).Unrecognised? <==> !Known(r)
  {
  }

  lemma ClickAmountNaNEscapes()
    ensures Parse(ClickForm("1", "", None, "", Prepare, NotANumber, None, Genuine)).Escaped?
  {
  }

  /** What every recognised request looks like to the processor, whatever the provider sent. */
  predicate WellFormed(c: Callback) {
    && (c.action == Create || c.action == Check ==> c.amount.Some?)
    && (c.action == Confirm && c.provider != Payme ==> c.amount.Some?)
    && (c.action == Cancel || c.action == Status ==> c.amount.None?)
    && (c.provider == Payme && c.action != Create && c.action != Check ==> c.reference.None? && c.amount.None?)
  }

  lemma ParsedIsWellFormed(r: Request)
    requires Parse(r).Recognised?
    ensures WellFormed(Parse(r).callback)
    ensures Parse(r).callback.provider == RequestProvider(r)
    ensures Parse(r).callback.authentic == Authentic(r)
  {
  }

  // ---------------------------------------------------------------- answers

  datatype OutcomeStatus =
    Success | AlreadyProcessed | InvalidSignature | UnknownPayment | AmountMismatch | InvalidState

  /** The payment as it is answered: its id and the row read for the outcome. */
  datatype Answered = Answered(id: Id, row: Payment)

  datatype CallbackOutcome = CallbackOutcome(status: OutcomeStatus, payment: Option<Answered>)

  datatype PaymeResult =
    | Allow
    | Opened(createTime: int, transaction: Id, state: int)
    | Performed(transaction: Id, performTime: int, state: int)
    | Cancelled(transaction: Id, cancelTime: int, state: int)
    | Report(createTime: int, performTime: int, cancelTime: int, transaction: Id, state: int, reason: Reason)
    | NoPayment

  datatype Reason = NoReason | Coded(code: int) | Timeout

  datatype PrepareId = Echoed(text: string) | OurPayment(id: Id)

  datatype Body =
    | PaymeAnswer(result: PaymeResult, rpcId: string)
    | PaymeError(code: int, rpcId: string)
    | ClickAnswer(clickTransId: string, merchantTransId: string, prepareId: Option<PrepareId>, error: int)
    | StripeReceived
    | StripeRefused

  const UNIX_EPOCH_DAY := 719_163

  /** Milliseconds since 1970, truncated toward zero; an unset time is 0. */
  function Millis(m: Option<Moment>): int {
    if m.None? then 0
    else
      var micros := Instant(m.value) - UNIX_EPOCH_DAY * MICROS_PER_DAY;
      if micros >= 0 then micros / 1000 else -((-micros) / 1000)
  }

  /** The milliseconds are whole ones since 1970, and a later moment never has fewer. */
  lemma MillisExactly(m: Moment)
    ensures var since := Instant(m) - UNIX_EPOCH_DAY * MICROS_PER_DAY;
            && (since >= 0 ==> 1000 * Millis(Some(m)) <= since < 1000 * (Millis(Some(m)) + 1))
            && (since <= 0 ==> 1000 * (Millis(Some(m)) - 1) < since <= 1000 * Millis(Some(m)))
  {
  }

  /** Day 719163 of the calendar is 1 January 1970. */
  lemma EpochIs1970(m: Moment)
    requires m.date == Date(1970, 1, 1) && m.time == 0
    ensures Millis(Some(m)) == 0 && Millis(None) == 0
  {
    DaysBeforeYearClosed(1970);
  }

  /** Payme transaction states: 1 open, 2 performed, -1 canceled before perform. */
  function PaymeState(status: PaymentStatus): int {
    if status == Succeeded then 2 else if IsOpen(status) then 1 else -1
  }

  /**
   Why a closed transaction was closed: the provider's numeric code, or our own timeout. None is
   the exception of converting a code that only looks numeric.
   */
  function PaymeReason(p: Payment): Option<Reason> {
    if PaymeState(p.status) != -1 then Some(NoReason)
    else if p.failureCode.Some? && LooksNumeric(p.failureCode.value) then
      match ToInt(p.failureCode.value)
      case Some(code) => Some(Coded(code))
      case None => None
    else if p.status == Expired then Some(Timeout)
    else Some(NoReason)
  }

  function ReasonOr(reason: Option<Reason>): Reason {
    if reason.Some? then reason.value else NoReason
  }

  function PaymeSuccess(action: Action, payment: Option<Answered>): PaymeResult {
    if action == Check then Allow
    else if payment.None? then NoPayment
    else
      var a := payment.value;
      match action
      case Create => Opened(Millis(a.row.pendingAt), a.id, PaymeState(a.row.status))
      case Confirm => Performed(a.id, Millis(a.row.paidAt), PaymeState(a.row.status))
      case Cancel => Cancelled(a.id, Millis(a.row.closedAt), PaymeState(a.row.status))
      case _ => Report(Millis(a.row.pendingAt), Millis(a.row.paidAt), Millis(a.row.closedAt), a.id,
                       PaymeState(a.row.status), ReasonOr(PaymeReason(a.row)))
  }

  function PaymeErrorCode(status: OutcomeStatus, action: Action): int {
    match status
    case InvalidSignature => -32504
    case AmountMismatch => -31001
    case UnknownPayment => if action == Check || action == Create then -31050 else -31003
    case _ => -31008
  }

  predicate Succeeds(status: OutcomeStatus) {
    status == Success || status == AlreadyProcessed
  }

  /** A repeated CreateTransaction is answered only while its transaction is still open. */
  predicate CreateIsStale(action: Action, o: CallbackOutcome) {
    action == Create && Succeeds(o.status) && o.payment.Some? && o.payment.value.row.status != Pending
  }

  function AnswerPayme(r: Request, action: Action, o: CallbackOutcome): Body
    requires r.PaymeCall?
  {
    if CreateIsStale(action, o) then PaymeError(PaymeErrorCode(InvalidState, action), r.rpcId)
    else if Succeeds(o.status) then PaymeAnswer(PaymeSuccess(action, o.payment), r.rpcId)
    else PaymeError(PaymeErrorCode(o.status, action), r.rpcId)
  }

  function ClickErrorCode(status: OutcomeStatus, action: Action): int {
    match status
    case InvalidSignature => -1
    case AmountMismatch => -2
    case UnknownPayment => -5
    case InvalidState => -4
    case _ => if action == Cancel then -9 else 0
  }

  /** A Prepare id is echoed when the request carries one; otherwise it is our payment id. */
  function ClickBody(r: Request, id: Option<Id>, error: int): Body
    requires r.ClickForm?
  {
    ClickAnswer(r.clickTransId, r.merchantTransId,
                if r.prepareId != "" then Some(Echoed(r.prepareId))
                else if id.Some? then Some(OurPayment(id.value)) else None,
                error)
  }

  function AnswerClick(r: Request, action: Action, o: CallbackOutcome): Body
    requires r.ClickForm?
  {
    ClickBody(r, if o.payment.Some? then Some(o.payment.value.id) else None, ClickErrorCode(o.status, action))
  }

  /** The answer names the request it is for; it echoes a prepare id and otherwise hands out our payment's. */
  lemma ClickBodyNames(r: Request, id: Option<Id>, error: int)
    requires r.ClickForm?
    ensures var body := ClickBody(r, id, error);
            && body.clickTransId == r.clickTransId && body.merchantTransId == r.merchantTransId && body.error == error
            && (body.prepareId == Some(Echoed(r.prepareId)) <==> r.prepareId != "")
            && (forall ours: Id :: body.prepareId == Some(OurPayment(ours)) <==> r.prepareId == "" && id == Some(ours))
  {
  }

  function AnswerStripe(o: CallbackOutcome): Body {
    if o.status == InvalidSignature then StripeRefused else StripeReceived
  }

  /** Rendering a status report raises where its reason cannot be converted. */
  predicate AnswerRaises(r: Request, action: Action, o: CallbackOutcome) {
    && r.PaymeCall? && action == Status && Succeeds(o.status)
    && o.payment.Some? && PaymeReason(o.payment.value.row).None?
  }

  /** The answer in the dialect of the request, unless rendering it raises. */
  function Answer(r: Request, action: Action, o: CallbackOutcome): Body {
    match r
    case PaymeCall(_, _, _, _, _, _, _) => AnswerPayme(r, action, o)
    case ClickForm(_, _, _, _, _, _, _, _) => AnswerClick(r, action, o)
    case StripeEvent(_, _, _, _) => AnswerStripe(o)
  }

  // ---------------------------------------------------------------- building the answer

  /** The Click body, filled field by field. */
  method BuildClickAnswer(r: Request, action: Action, o: CallbackOutcome) returns (body: Body)
    requires r.ClickForm?
    ensures body == AnswerClick(r, action, o)
  {
    body := ClickAnswer(r.clickTransId, r.merchantTransId, None, 0);
    if r.prepareId != "" {
      body := body.(prepareId := Some(Echoed(r.prepareId)));
    } else if o.payment.Some? {
      body := body.(prepareId := Some(OurPayment(o.payment.value.id)));
    }
    var canceled := action == Cancel;
    if Succeeds(o.status) && canceled {
      body := body.(error := -9);
    } else if Succeeds(o.status) {
      body := body.(error := 0);
    } else {
      body := body.(error := match o.status
                              case InvalidSignature => -1
                              case AmountMismatch => -2
                              case UnknownPayment => -5
                              case _ => -4);
    }
  }

  method BuildAnswer(r: Request, action: Action, o: CallbackOutcome) returns (body: Body)
    ensures body == Answer(r, action, o)
  {
    if r.ClickForm? {
      body := BuildClickAnswer(r, action, o);
    } else {
      body := Answer(r, action, o);
    }
  }
}
