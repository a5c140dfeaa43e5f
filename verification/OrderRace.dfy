/**
 Order handlers that overlap. A handler reads the order without a lock, decides, and writes what
 it decided when it commits; rows become visible at commit and nothing checks that the row is
 still the one that was read. Serial handlers are those of module Orders.
 */
module OrderRace {
  import opened Base
  import opened Billing
  import opened Orders

  /** A handler that has read its order, if there was one, and has not committed. */
  datatype Handler = Handler(event: Event, seen: Option<Order>)

  datatype Shop = Shop(book: Book, open: map<Id, Handler>)

  datatype Step =
    | Read(handler: Id, event: Event)
    | Commit(handler: Id)
    | Abort(handler: Id)

  // ---------------------------------------------------------------- one handler

  /** The order that an event names. */
  function OrderOf(e: Event): Option<string> {
    if Settles(e) && e.target.ForCaller? && e.target.purpose == ORDER_PURPOSE && e.target.reference != ""
    then Some(e.target.reference) else None
  }

  function Snapshot(b: Book, e: Event): Option<Order> {
    var order := OrderOf(e);
    if order.Some? && order.value in b.orders then Some(b.orders[order.value]) else None
  }

  datatype Decision = Nothing | Pay(revives: bool) | Drop

  function Decide(seen: Option<Order>, e: Event): Decision {
    if seen.None? then Nothing
    else if e.PaymentSucceeded? then
      if seen.value.status == Paid || (seen.value.status == Dropped && !CanRevive(seen.value, Some(e.payment), e.late))
      then Nothing else Pay(seen.value.status == Dropped)
    else if e.PaymentClosed? && seen.value.status == AwaitingPayment then Drop
    else Nothing
  }

  /** Only columns whose value differs from the one read are written. */
  function Written(b: Book, h: Handler): Book {
    var order := OrderOf(h.event);
    if order.None? || order.value !in b.orders || h.seen.None? then b
    else
      var o := b.orders[order.value];
      match Decide(h.seen, h.event)
      case Nothing => b
      case Pay(revives) =>
        var paid := o.(status := Paid,
                       payment := if h.seen.value.payment == Some(h.event.payment) then o.payment
                                  else Some(h.event.payment));
        Book(b.orders[order.value := paid], b.emitted + [OrderPaid(order.value, Some(h.event.payment), revives)])
      case Drop =>
        Book(b.orders[order.value := o.(status := Dropped)], b.emitted + [OrderCanceled(order.value, h.event.status)])
  }

  function Apply(s: Shop, step: Step): Shop {
    match step
    case Read(handler, event) =>
      if handler in s.open then s else s.(open := s.open[handler := Handler(event, Snapshot(s.book, event))])
    case Commit(handler) =>
      if handler in s.open then Shop(Written(s.book, s.open[handler]), s.open - {handler}) else s
    case Abort(handler) => s.(open := s.open - {handler})
  }

  function Run(s: Shop, steps: seq<Step>): Shop {
    if steps == [] then s else Apply(Run(s, steps[..|steps| - 1]), steps[|steps| - 1])
  }

  // ---------------------------------------------------------------- against serial handlers

  /** A handler that commits what it read last is the serial handler. */
  lemma WrittenAtOnce(b: Book, e: Event)
    ensures Written(b, Handler(e, Snapshot(b, e))) == Handle(b, e)
  {
  }

  /**
   What a handler read is good enough for it to commit: it would decide the same now, and a payment
   that it does not write because the order had it is still the order's.
   */
  predicate StillGood(b: Book, h: Handler) {
    var now := Snapshot(b, h.event);
    && Decide(h.seen, h.event) == Decide(now, h.event)
    && (Decide(h.seen, h.event).Pay? && h.seen.value.payment == Some(h.event.payment) ==>
          now.value.payment == Some(h.event.payment))
  }

  lemma AppendDiffers<T>(s: seq<T>, x: T)
    ensures s + [x] != s
    ensures forall y :: s + [x] == s + [y] ==> x == y
  {
    assert |s + [x]| == |s| + 1;
    forall y | s + [x] == s + [y] ensures x == y {
      assert (s + [x])[|s|] == (s + [y])[|s|];
    }
  }

  /** An overlapped handler does what the serial one would do now if and only if what it read is still good. */
  lemma CommitIsSerialExactly(b: Book, h: Handler)
    requires h.seen.Some? ==> Snapshot(b, h.event).Some?
    ensures Written(b, h) == Handle(b, h.event) <==> StillGood(b, h)
  {
    WrittenAtOnce(b, h.event);
    if Snapshot(b, h.event).Some? {
      var order, e := OrderOf(h.event).value, h.event;
      AppendDiffers(b.emitted, OrderPaid(order, Some(e.payment), true));
      AppendDiffers(b.emitted, OrderPaid(order, Some(e.payment), false));
      if e.PaymentClosed? {
        AppendDiffers(b.emitted, OrderCanceled(order, e.status));
      }
      if Decide(h.seen, e).Pay? && Decide(h.seen, e) == Decide(Snapshot(b, e), e) {
        assert Written(b, h).orders[order].payment == Handle(b, e).orders[order].payment <==> StillGood(b, h);
        assert Written(b, h).emitted == Handle(b, e).emitted;
        if StillGood(b, h) {
          assert Written(b, h).orders[order] == Handle(b, e).orders[order];
        }
      }
    }
  }

  // ---------------------------------------------------------------- whole runs

  /** Orders are not deleted, so what a handler read is still there. */
  ghost predicate Kept(s: Shop) {
    forall h :: h in s.open && s.open[h].seen.Some? ==> Snapshot(s.book, s.open[h].event).Some?
  }

  lemma OrdersStay(s: Shop, step: Step)
    requires Kept(s)
    ensures Kept(Apply(s, step)) && Apply(s, step).book.orders.Keys == s.book.orders.Keys
  {
    var t := Apply(s, step);
    if step.Commit? && step.handler in s.open {
      assert t.book.orders.Keys == s.book.orders.Keys;
    }
  }

  lemma {:induction false} RunKeepsOrders(s: Shop, steps: seq<Step>)
    requires Kept(s)
    ensures Kept(Run(s, steps)) && Run(s, steps).book.orders.Keys == s.book.orders.Keys
  {
    if steps != [] {
      RunKeepsOrders(s, steps[..|steps| - 1]);
      OrdersStay(Run(s, steps[..|steps| - 1]), steps[|steps| - 1]);
    }
  }

  /** The events of the handlers that committed, in the order of their commits. */
  function CommittedIn(s: Shop, steps: seq<Step>): seq<Event> {
    if steps == [] then []
    else
      var before, last := Run(s, steps[..|steps| - 1]), steps[|steps| - 1];
      CommittedIn(s, steps[..|steps| - 1])
      + if last.Commit? && last.handler in before.open then [before.open[last.handler].event] else []
  }

  /** No handler of the run commits on a reading that is no longer good. */
  predicate NoStaleCommit(s: Shop, steps: seq<Step>) {
    steps == [] ||
    var before, last := Run(s, steps[..|steps| - 1]), steps[|steps| - 1];
    && NoStaleCommit(s, steps[..|steps| - 1])
    && (last.Commit? && last.handler in before.open ==> StillGood(before.book, before.open[last.handler]))
  }

  lemma HandleOneMore(b: Book, events: seq<Event>, e: Event)
    ensures HandleAll(b, events + [e]) == Handle(HandleAll(b, events), e)
  {
    assert (events + [e])[..|events|] == events;
  }

  /** Overlapping handlers that commit no stale reading are serial, in the order of their commits. */
  lemma {:induction false} OverlapIsSerial(s: Shop, steps: seq<Step>)
    requires Kept(s) && NoStaleCommit(s, steps)
    ensures Run(s, steps).book == HandleAll(s.book, CommittedIn(s, steps))
  {
    if steps != [] {
      var rest, last := steps[..|steps| - 1], steps[|steps| - 1];
      var before := Run(s, rest);
      OverlapIsSerial(s, rest);
      RunKeepsOrders(s, rest);
      if last.Commit? && last.handler in before.open {
        var h := before.open[last.handler];
        CommitIsSerialExactly(before.book, h);
        HandleOneMore(s.book, CommittedIn(s, rest), h.event);
      } else {
        assert CommittedIn(s, steps) == CommittedIn(s, rest);
      }
    }
  }

  /** Only a commit writes, each handler commits once, and one that aborts never does. */
  lemma OnlyCommitsWrite(s: Shop, step: Step, handler: Id)
    ensures var t := Apply(s, step);
            && (step.Commit? || t.book == s.book)
            && (step == Commit(handler) || step == Abort(handler) ==> handler !in t.open)
            && (handler in s.open && step != Commit(handler) && step != Abort(handler) ==>
                  handler in t.open && t.open[handler] == s.open[handler])
  {
  }

  // ---------------------------------------------------------------- a paid order

  predicate IsPaid(b: Book, order: string) {
    order in b.orders && b.orders[order].status == Paid
  }

  predicate PaidAfter(s: Shop, steps: seq<Step>, order: string) {
    IsPaid(Run(s, steps).book, order)
  }

  /** An open handler that read the order while it waited and will cancel it. */
  ghost predicate Threatened(s: Shop, order: string) {
    exists h :: h in s.open && Threatens(s.open[h], order)
  }

  predicate Threatens(h: Handler, order: string) {
    OrderOf(h.event) == Some(order) && Decide(h.seen, h.event).Drop?
  }

  lemma SafeStep(s: Shop, step: Step, order: string)
    requires IsPaid(s.book, order) && !Threatened(s, order)
    ensures IsPaid(Apply(s, step).book, order) && !Threatened(Apply(s, step), order)
  {
    var t := Apply(s, step);
    forall h | h in t.open ensures !Threatens(t.open[h], order) {
      assert h in s.open ==> !Threatens(s.open[h], order);
    }
  }

  lemma {:induction false} SafeRun(s: Shop, steps: seq<Step>, order: string)
    requires IsPaid(s.book, order) && !Threatened(s, order)
    ensures IsPaid(Run(s, steps).book, order) && !Threatened(Run(s, steps), order)
  {
    if steps != [] {
      SafeRun(s, steps[..|steps| - 1], order);
      SafeStep(Run(s, steps[..|steps| - 1]), steps[|steps| - 1], order);
    }
  }

  /** A paid order stays paid whatever follows if and only if no open handler read it waiting and will cancel it. */
  lemma PaidForGoodExactly(s: Shop, order: string)
    requires IsPaid(s.book, order)
    ensures (forall steps :: PaidAfter(s, steps, order)) <==> !Threatened(s, order)
  {
    if Threatened(s, order) {
      var h :| h in s.open && Threatens(s.open[h], order);
      var steps := [Commit(h)];
      assert steps[..0] == [] && Run(s, []) == s;
      assert Run(s, steps) == Apply(s, Commit(h));
      assert !PaidAfter(s, steps, order);
    } else {
      forall steps ensures PaidAfter(s, steps, order) {
        SafeRun(s, steps, order);
      }
    }
  }

  /**
   The race is real: the checkout of an order expires and its payment succeeds late, both handlers
   read the waiting order, and the order ends canceled although its payment succeeded.
   */
  lemma PaidOrderIsCanceled(b: Book, order: string, success: Event, expiry: Event)
    requires order in b.orders && b.orders[order].status == AwaitingPayment
    requires Names(success, order) && success.PaymentSucceeded? && Names(expiry, order) && expiry.PaymentClosed?
    ensures var s := Run(Shop(b, map[]), [Read(0, success), Read(1, expiry), Commit(0), Commit(1)]);
            && s.open == map[] && order in s.book.orders && s.book.orders[order].status == Dropped
            && Verdict([success, expiry], order) == Paid
  {
    var steps := [Read(0, success), Read(1, expiry), Commit(0), Commit(1)];
    var s0 := Shop(b, map[]);
    assert steps[..3][..2] == steps[..2] && steps[..2][..1] == steps[..1] && steps[..1][..0] == [];
    var s1 := Apply(s0, Read(0, success));
    assert Run(s0, steps[..1]) == s1;
    var s2 := Apply(s1, Read(1, expiry));
    assert Run(s0, steps[..2]) == s2;
    var s3 := Apply(s2, Commit(0));
    assert Run(s0, steps[..3]) == s3;
    assert s3.open - {1} == map[];
    assert success in [success, expiry];
  }
}
