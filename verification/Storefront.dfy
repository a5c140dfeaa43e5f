/**
 Carts, orders and their payments: what the buyer put in the cart is what is ordered, and the
 order's total is what billing is asked for.
 */
module Storefront {
  import opened Base
  import opened Billing
  import opened BillingRuns
  import opened BillingService
  import opened Orders
  import Handlers = Orders

  const MAX_LINE_QUANTITY := 1000

  datatype Product = Product(onSale: bool, price: nat, currency: string)

  datatype CartStatus = Open | CheckedOut | Abandoned

  datatype Item = Item(product: Id, quantity: int, unitPrice: int, currency: string)

  datatype Cart = Cart(tenant: Id, customer: Id, status: CartStatus, items: seq<Item>)

  datatype LineIn = LineIn(product: Id, quantity: int)

  /** The price of a product on sale. */
  function SaleInfo(catalogue: map<Id, Product>, product: Id): Outcome<Money> {
    if product !in catalogue then Err(NotFound)
    else if !catalogue[product].onSale then Err(InvariantViolation)
    else Ok(Money(catalogue[product].price, catalogue[product].currency))
  }

  /** A product is sold at its catalogue price, if it is there and on sale. */
  lemma SaleInfoExactly(catalogue: map<Id, Product>, product: Id)
    ensures var r := SaleInfo(catalogue, product);
            && (r == Err(NotFound) <==> product !in catalogue)
            && (r == Err(InvariantViolation) <==> product in catalogue && !catalogue[product].onSale)
            && (r.Ok? <==> product in catalogue && catalogue[product].onSale)
            && (r.Ok? ==> r.value.amount == catalogue[product].price && r.value.currency == catalogue[product].currency)
  {
  }

  // ---------------------------------------------------------------- carts

  /** One line per product, a bounded quantity on each, and one currency. */
  ghost predicate GoodItems(items: seq<Item>) {
    && (forall i, j :: 0 <= i < j < |items| ==> items[i].product != items[j].product)
    && (forall i :: 0 <= i < |items| ==> 1 <= items[i].quantity <= MAX_LINE_QUANTITY)
    && (forall i :: 0 <= i < |items| ==> items[i].currency == items[0].currency)
  }

  predicate ActiveCart(carts: map<Id, Cart>, tenant: Id, customer: Id, id: Id) {
    id in carts && carts[id].tenant == tenant && carts[id].customer == customer && carts[id].status == Open
  }

  ghost predicate GoodCarts(carts: map<Id, Cart>) {
    && (forall id :: id in carts ==> GoodItems(carts[id].items))
    && (forall tenant, customer, a, b ::
          ActiveCart(carts, tenant, customer, a) && ActiveCart(carts, tenant, customer, b) ==> a == b)
  }

  /** How much of a product a cart holds. */
  function Holds(items: seq<Item>, product: Id): int {
    if items == [] then 0
    else Holds(items[..|items| - 1], product)
         + if items[|items| - 1].product == product then items[|items| - 1].quantity else 0
  }

  lemma {:induction false} HoldsAt(items: seq<Item>, i: nat)
    requires GoodItems(items) && i < |items|
    ensures Holds(items, items[i].product) == items[i].quantity
  {
    var rest := items[..|items| - 1];
    if i == |items| - 1 {
      HoldsNone(rest, items[i].product);
    } else {
      HoldsAt(rest, i);
    }
  }

  lemma {:induction false} HoldsNone(items: seq<Item>, product: Id)
    requires forall i :: 0 <= i < |items| ==> items[i].product != product
    ensures Holds(items, product) == 0
  {
    if items != [] {
      HoldsNone(items[..|items| - 1], product);
    }
  }

  lemma {:induction false} HoldsUpdate(items: seq<Item>, i: nat, item: Item, product: Id)
    requires i < |items| && item.product == items[i].product
    ensures Holds(items[i := item], product)
            == Holds(items, product) + if item.product == product then item.quantity - items[i].quantity else 0
  {
    var rest := items[..|items| - 1];
    if i < |items| - 1 {
      assert items[i := item][..|items| - 1] == rest[i := item];
      HoldsUpdate(rest, i, item, product);
    } else {
      assert items[i := item][..|items| - 1] == rest;
    }
  }

  lemma {:induction false} HoldsRemove(items: seq<Item>, i: nat, product: Id)
    requires i < |items|
    ensures Holds(items[..i] + items[i + 1..], product)
            == Holds(items, product) - if items[i].product == product then items[i].quantity else 0
  {
    var rest := items[..|items| - 1];
    if i < |items| - 1 {
      assert (items[..i] + items[i + 1..])[..|items| - 2] == rest[..i] + rest[i + 1..];
      HoldsRemove(rest, i, product);
    } else {
      assert items[..i] + items[i + 1..] == rest;
    }
  }

  lemma RemovedHolds(items: seq<Item>, i: nat, p: Id)
    requires GoodItems(items) && i < |items|
    ensures Holds(items[..i] + items[i + 1..], p) == if p == items[i].product then 0 else Holds(items, p)
  {
    HoldsRemove(items, i, p);
    HoldsAt(items, i);
  }

  lemma RemovedIsGood(items: seq<Item>, i: nat)
    requires GoodItems(items) && i < |items|
    ensures GoodItems(items[..i] + items[i + 1..])
  {
  }

  // ---------------------------------------------------------------- active carts

  ghost function ActiveOf(carts: map<Id, Cart>, tenant: Id, customer: Id): (r: Option<Id>)
    ensures r.Some? ==> ActiveCart(carts, tenant, customer, r.value)
    ensures r.None? ==> forall id :: !ActiveCart(carts, tenant, customer, id)
  {
    if exists id :: ActiveCart(carts, tenant, customer, id) then
      var id :| ActiveCart(carts, tenant, customer, id);
      Some(id)
    else None
  }

  function ItemsOf(carts: map<Id, Cart>, id: Option<Id>): seq<Item> {
    if id.Some? && id.value in carts then carts[id.value].items else []
  }

  /** A buyer's one active cart may change its lines, close, or be opened where there is none. */
  lemma CartReplaced(carts: map<Id, Cart>, id: Id, cart: Cart)
    requires GoodCarts(carts) && GoodItems(cart.items)
    requires id in carts
             ==> carts[id].tenant == cart.tenant && carts[id].customer == cart.customer && carts[id].status == Open
    requires id !in carts ==> ActiveOf(carts, cart.tenant, cart.customer).None?
    ensures GoodCarts(carts[id := cart])
  {
    var next := carts[id := cart];
    assert forall t, c, a :: a != id && ActiveCart(next, t, c, a) ==> ActiveCart(carts, t, c, a);
    assert forall t, c :: ActiveCart(next, t, c, id) && id in carts ==> ActiveCart(carts, t, c, id);
  }

  // ---------------------------------------------------------------- merging a product

  function LineOf(items: seq<Item>, product: Id): (i: nat)
    ensures i <= |items|
    ensures i < |items| ==> items[i].product == product
    ensures forall k :: 0 <= k < i ==> items[k].product != product
  {
    if items == [] || items[0].product == product then 0
    else
      var i := 1 + LineOf(items[1..], product);
      assert forall k :: 1 <= k < i ==> items[k] == items[1..][k - 1];
      i
  }

  /** The line of a product that is added once more: the quantity grows, the price is today's. */
  function MergedLine(items: seq<Item>, product: Id, quantity: int, price: Money): Item {
    var i := LineOf(items, product);
    Item(product, quantity + (if i < |items| then items[i].quantity else 0), price.amount, price.currency)
  }

  /** The lines of a cart once a product is added: its line in place, or a new one at the end. */
  function Merged(items: seq<Item>, product: Id, quantity: int, price: Money): seq<Item> {
    var i := LineOf(items, product);
    var line := MergedLine(items, product, quantity, price);
    if i < |items| then items[i := line] else items + [line]
  }

  predicate CanMerge(items: seq<Item>, product: Id, quantity: int, currency: string) {
    (items == [] || items[0].currency == currency) && 1 <= Holds(items, product) + quantity <= MAX_LINE_QUANTITY
  }

  /** Another currency or too many of a product are refused; none or fewer than none fail in the database. */
  function MergeError(items: seq<Item>, product: Id, quantity: int, currency: string): Error {
    if (items != [] && items[0].currency != currency) || Holds(items, product) + quantity > MAX_LINE_QUANTITY
    then InvariantViolation else IntegrityFailure
  }

  lemma HoldsLine(items: seq<Item>, product: Id)
    requires GoodItems(items)
    ensures var i := LineOf(items, product);
            Holds(items, product) == if i < |items| then items[i].quantity else 0
  {
    var i := LineOf(items, product);
    if i < |items| {
      HoldsAt(items, i);
    } else {
      HoldsNone(items, product);
    }
  }

  lemma MergedHolds(items: seq<Item>, product: Id, quantity: int, price: Money, p: Id)
    requires GoodItems(items)
    ensures Holds(Merged(items, product, quantity, price), p) == Holds(items, p) + if p == product then quantity else 0
  {
    var i, line := LineOf(items, product), MergedLine(items, product, quantity, price);
    if i < |items| {
      HoldsUpdate(items, i, line, p);
    } else {
      assert (items + [line])[..|items|] == items;
    }
  }

  lemma MergedIsGood(items: seq<Item>, product: Id, quantity: int, price: Money)
    requires GoodItems(items) && CanMerge(items, product, quantity, price.currency)
    ensures GoodItems(Merged(items, product, quantity, price))
  {
    HoldsLine(items, product);
  }

  /** The cart holds the product alone, in another currency. */
  predicate OnlyThat(items: seq<Item>, product: Id, currency: string) {
    |items| == 1 && items[0].product == product && items[0].currency != currency
  }

  /**
   A product is merged exactly if the cart is a good one afterwards, except that a cart with that
   product alone does not change its currency.
   */
  lemma MergesExactly(items: seq<Item>, product: Id, quantity: int, price: Money)
    requires GoodItems(items)
    ensures CanMerge(items, product, quantity, price.currency)
            <==> GoodItems(Merged(items, product, quantity, price)) && !OnlyThat(items, product, price.currency)
  {
    HoldsLine(items, product);
    var merged, i := Merged(items, product, quantity, price), LineOf(items, product);
    if GoodItems(merged) && !OnlyThat(items, product, price.currency) && items != [] {
      var other := if i == 0 && |items| > 1 then 1 else 0;
      assert i < |items| ==> merged[i] == MergedLine(items, product, quantity, price);
      assert i == |items| ==> merged[|items|] == MergedLine(items, product, quantity, price);
      assert other != i ==> merged[other] == items[other];
    }
  }

  // ---------------------------------------------------------------- orders

  function Total(lines: seq<Line>): int {
    if lines == [] then 0
    else Total(lines[..|lines| - 1]) + lines[|lines| - 1].unitPrice * lines[|lines| - 1].quantity
  }

  /** The order lines are the requested ones, in order, at the catalogue's current price. */
  ghost predicate PricedAt(catalogue: map<Id, Product>, wanted: seq<LineIn>, lines: seq<Line>, currency: string) {
    && |lines| == |wanted|
    && forall i :: 0 <= i < |wanted| ==>
         && lines[i].product == wanted[i].product && lines[i].quantity == wanted[i].quantity
         && lines[i].currency == currency
         && SaleInfo(catalogue, wanted[i].product) == Ok(Money(lines[i].unitPrice, currency))
  }

  /** Whether a request can be priced at all: something to buy, all on sale, in one currency. */
  predicate Priceable(catalogue: map<Id, Product>, wanted: seq<LineIn>) {
    && wanted != []
    && (forall i :: 0 <= i < |wanted| ==> SaleInfo(catalogue, wanted[i].product).Ok?)
    && (forall i :: 0 <= i < |wanted| ==>
          SaleInfo(catalogue, wanted[i].product).value.currency
            == SaleInfo(catalogue, wanted[0].product).value.currency)
  }

  /** Pricing stops at the first line that is not on sale or in another currency than the lines before it. */
  predicate StopsAt(catalogue: map<Id, Product>, wanted: seq<LineIn>, k: nat, error: Error)
    requires k < |wanted|
  {
    && (k == 0 || Priceable(catalogue, wanted[..k]))
    && match SaleInfo(catalogue, wanted[k].product)
       case Err(e) => error == e
       case Ok(money) =>
         var first := SaleInfo(catalogue, wanted[0].product);
         error == InvariantViolation && first.Ok? && first.value.currency != money.currency
  }

  ghost predicate PriceFails(catalogue: map<Id, Product>, wanted: seq<LineIn>, error: Error) {
    if wanted == [] then error == InvariantViolation
    else exists k: nat :: k < |wanted| && StopsAt(catalogue, wanted, k, error)
  }

  /** Billing's answer to the payment of an order over the given amount. */
  ghost function PaymentFor(s: State, tenant: Id, money: Money, order: string, provider: Provider, newPayment: Id,
                            checkout: Option<string>): Outcome<(State, Checkout)> {
    CreatePayment(s, tenant, money, ForCaller(ORDER_PURPOSE, order), provider, CallerKey("order:" + order), newPayment,
                  checkout)
  }

  /** Which order is not placed: one that cannot be priced, has a taken id, or whose payment billing refuses. */
  ghost predicate PlaceFails(catalogue: map<Id, Product>, orders: map<string, Order>, s: State, tenant: Id,
                             order: string, wanted: seq<LineIn>, provider: Provider, newPayment: Id,
                             checkout: Option<string>, error: Error) {
    if !Priceable(catalogue, wanted) then PriceFails(catalogue, wanted, error)
    else if order in orders then error == IntegrityFailure
    else exists lines, currency ::
           && PricedAt(catalogue, wanted, lines, currency)
           && PaymentFor(s, tenant, Money(Total(lines), currency), order, provider, newPayment, checkout) == Err(error)
  }

  datatype Quote = Quote(lines: seq<Line>, total: int, currency: string)

  /** The pricing loop of an order. */
  method Price(catalogue: map<Id, Product>, wanted: seq<LineIn>) returns (r: Outcome<Quote>)
    requires forall id :: id in catalogue ==> catalogue[id].currency != ""
    ensures r.Ok? <==> Priceable(catalogue, wanted)
    ensures r.Ok? ==> PricedAt(catalogue, wanted, r.value.lines, r.value.currency)
                      && r.value.total == Total(r.value.lines)
    ensures r.Err? ==> PriceFails(catalogue, wanted, r.error)
  {
    var lines: seq<Line>, total, currency := [], 0, "";
    for k := 0 to |wanted|
      invariant PricedAt(catalogue, wanted[..k], lines, currency) && total == Total(lines)
      invariant k == 0 <==> currency == ""
      invariant forall i :: 0 <= i < k ==> SaleInfo(catalogue, wanted[i].product).Ok?
      invariant forall i :: 0 <= i < k ==> SaleInfo(catalogue, wanted[i].product).value.currency == currency
    {
      var price := SaleInfo(catalogue, wanted[k].product);
      if price.Err? {
        assert StopsAt(catalogue, wanted, k, price.error);
        return Err(price.error);
      }
      if currency == "" {
        currency := price.value.currency;
      } else if currency != price.value.currency {
        assert StopsAt(catalogue, wanted, k, InvariantViolation);
        return Err(InvariantViolation);
      }
      var line := Line(wanted[k].product, wanted[k].quantity, price.value.amount, price.value.currency);
      assert (lines + [line])[..|lines|] == lines;
      lines := lines + [line];
      total := total + price.value.amount * wanted[k].quantity;
    }
    assert wanted[..|wanted|] == wanted;
    if currency == "" {
      return Err(InvariantViolation);
    }
    r := Ok(Quote(lines, total, currency));
  }

  class Shop {
    const billing: Database
    var catalogue: map<Id, Product>
    var carts: map<Id, Cart>
    var orders: map<string, Order>
    var emitted: seq<OrderEvent>

    ghost function OrderBook(): Book
      reads this
    {
      Book(orders, emitted)
    }

    ghost predicate Valid()
      reads this, billing
    {
      && GoodCarts(carts) && billing.Valid()
      && forall id :: id in catalogue ==> catalogue[id].currency != ""
    }

    constructor (billing: Database, catalogue: map<Id, Product>)
      requires billing.Valid() && forall id :: id in catalogue ==> catalogue[id].currency != ""
      ensures Valid() && this.billing == billing && carts == map[] && orders == map[]
    {
      this.billing, this.catalogue, carts, orders, emitted := billing, catalogue, map[], map[], [];
    }

    method FindActive(tenant: Id, customer: Id) returns (r: Option<Id>)
      requires GoodCarts(carts)
      ensures r == ActiveOf(carts, tenant, customer)
    {
      if id: Id :| id in carts && ActiveCart(carts, tenant, customer, id) {
        r := Some(id);
      } else {
        r := None;
      }
    }

    method FindItem(items: seq<Item>, product: Id) returns (i: nat)
      ensures i == LineOf(items, product)
    {
      i := 0;
      while i < |items| && items[i].product != product
        invariant i <= |items| && forall k :: 0 <= k < i ==> items[k].product != product
      {
        i := i + 1;
      }
    }

    /** Merge one product into a cart's lines at its current price. */
    method Merge(items: seq<Item>, product: Id, quantity: int, price: Money) returns (r: Outcome<seq<Item>>)
      requires GoodItems(items)
      ensures r.Ok? <==> CanMerge(items, product, quantity, price.currency)
      ensures r.Ok? ==> r.value == Merged(items, product, quantity, price)
      ensures r.Err? ==> r.error == MergeError(items, product, quantity, price.currency)
    {
      HoldsLine(items, product);
      var existing := FindItem(items, product);
      if items != [] && items[0].currency != price.currency {
        return Err(InvariantViolation);
      }
      var total := quantity + if existing < |items| then items[existing].quantity else 0;
      if total > MAX_LINE_QUANTITY {
        return Err(InvariantViolation);
      }
      if total < 1 {
        return Err(IntegrityFailure);
      }
      var item := Item(product, total, price.amount, price.currency);
      r := Ok(if existing < |items| then items[existing := item] else items + [item]);
    }

    /** Add to the buyer's active cart, opening one if there is none. */
    method AddItem(tenant: Id, customer: Id, product: Id, quantity: int, newCart: Id) returns (r: Outcome<Id>)
      requires Valid()
      modifies this`carts
      ensures Valid()
      ensures r.Err? ==> carts == old(carts)
      ensures var sale, active := SaleInfo(catalogue, product), ActiveOf(old(carts), tenant, customer);
              && (r.Ok? <==>
                    && sale.Ok? && (active.Some? || newCart !in old(carts))
                    && CanMerge(ItemsOf(old(carts), active), product, quantity, sale.value.currency))
              && (r.Err? ==>
                    r.error == if sale.Err? then sale.error
                               else if active.None? && newCart in old(carts) then IntegrityFailure
                               else MergeError(ItemsOf(old(carts), active), product, quantity, sale.value.currency))
              && (r.Ok? ==>
                    && r.value == (if active.Some? then active.value else newCart)
                    && carts == old(carts)[r.value := Cart(tenant, customer, Open,
                                                           Merged(ItemsOf(old(carts), active), product, quantity,
                                                                  sale.value))])
    {
      var price := SaleInfo(catalogue, product);
      if price.Err? {
        return Err(price.error);
      }
      var active := FindActive(tenant, customer);
      if active.None? && newCart in carts {
        return Err(IntegrityFailure);
      }
      var id := if active.Some? then active.value else newCart;
      var cart := if active.Some? then carts[id] else Cart(tenant, customer, Open, []);
      var items := Merge(cart.items, product, quantity, price.value);
      if items.Err? {
        return Err(items.error);
      }
      MergedIsGood(cart.items, product, quantity, price.value);
      CartReplaced(carts, id, Cart(tenant, customer, Open, items.value));
      carts := carts[id := cart.(items := items.value)];
      r := Ok(id);
    }

    method RemoveItem(tenant: Id, customer: Id, product: Id) returns (r: Outcome<Id>)
      requires Valid()
      modifies this`carts
      ensures Valid()
      ensures r.Err? ==> carts == old(carts) && r.error == NotFound
      ensures var active := ActiveOf(old(carts), tenant, customer);
              && (r.Ok? <==> active.Some? && Holds(ItemsOf(old(carts), active), product) > 0)
              && (r.Ok? ==>
                    && r.value == active.value && r.value in carts
                    && carts == old(carts)[r.value := old(carts)[r.value].(items := carts[r.value].items)]
                    && forall p :: Holds(carts[r.value].items, p)
                                   == if p == product then 0 else Holds(old(carts)[r.value].items, p))
    {
      var active := FindActive(tenant, customer);
      if active.None? {
        return Err(NotFound);
      }
      var cart := carts[active.value];
      HoldsLine(cart.items, product);
      var found := FindItem(cart.items, product);
      if found == |cart.items| {
        return Err(NotFound);
      }
      var rest := cart.items[..found] + cart.items[found + 1..];
      forall p: Id ensures Holds(rest, p) == if p == product then 0 else Holds(cart.items, p) {
        RemovedHolds(cart.items, found, p);
      }
      RemovedIsGood(cart.items, found);
      CartReplaced(carts, active.value, cart.(items := rest));
      carts := carts[active.value := cart.(items := rest)];
      r := Ok(active.value);
    }

    /** Price the lines, record the order and open its payment for exactly the order's total. */
    method PlaceOrder(tenant: Id, customer: Id, order: string, wanted: seq<LineIn>, provider: Provider, newPayment: Id,
                      checkout: Option<string>)
      returns (r: Outcome<Checkout>)
      requires Valid()
      modifies this`orders, billing
      ensures Valid()
      ensures r.Err? ==> orders == old(orders) && billing.Tables() == old(billing.Tables())
      ensures r.Err? ==> PlaceFails(catalogue, old(orders), old(billing.Tables()), tenant, order, wanted, provider,
                                    newPayment, checkout, r.error)
      ensures r.Ok? ==>
                && order !in old(orders)
                && order in orders && orders == old(orders)[order := orders[order]]
                && var o := orders[order];
                   && o.customer == customer && o.status == AwaitingPayment && o.payment == Some(r.value.payment)
                   && PricedAt(catalogue, wanted, o.lines, o.currency) && o.total == Total(o.lines)
                   && r.value.payment in billing.payments
                   && billing.payments[r.value.payment].money == Money(o.total, o.currency)
                   && billing.payments[r.value.payment].target == ForCaller(ORDER_PURPOSE, order)
                   && billing.payments[r.value.payment].tenant == tenant
    {
      var priced := Price(catalogue, wanted);
      if priced.Err? {
        return Err(priced.error);
      }
      if order in orders {
        return Err(IntegrityFailure);
      }
      var quote := priced.value;
      r := OpenPayment(tenant, quote, order, provider, newPayment, checkout);
      if r.Ok? {
        orders := orders[order := Order(customer, AwaitingPayment, quote.total, quote.currency, Some(r.value.payment),
                                        quote.lines)];
      }
    }

    /** Take payment through billing; the reference ties the payment back to the order. */
    method OpenPayment(tenant: Id, quote: Quote, order: string, provider: Provider, newPayment: Id,
                       checkout: Option<string>)
      returns (r: Outcome<Checkout>)
      requires billing.Valid()
      modifies billing
      ensures billing.Valid()
      ensures match PaymentFor(old(billing.Tables()), tenant, Money(quote.total, quote.currency), order, provider,
                               newPayment, checkout)
              case Ok((t, answer)) => r == Ok(answer) && billing.Tables() == t
              case Err(e) => r == Err(e) && billing.Tables() == old(billing.Tables())
      ensures r.Ok? ==>
                && r.value.payment in billing.payments
                && billing.payments[r.value.payment].money == Money(quote.total, quote.currency)
                && billing.payments[r.value.payment].target == ForCaller(ORDER_PURPOSE, order)
                && billing.payments[r.value.payment].tenant == tenant
    {
      var money := Money(quote.total, quote.currency);
      OpeningKeeps(billing.Tables(), TakePayment(tenant, money, ORDER_PURPOSE, order, provider, "order:" + order,
                                                 newPayment, checkout));
      r := billing.CreatePayment(tenant, money, ForCaller(ORDER_PURPOSE, order), provider,
                                 CallerKey("order:" + order), newPayment, checkout);
    }

    /** Turn the active cart into an order; the cart closes only if the order was placed. */
    method Checkout(tenant: Id, customer: Id, order: string, provider: Provider, newPayment: Id,
                    checkout: Option<string>)
      returns (r: Outcome<Spec.Checkout>)
      requires Valid()
      modifies this`orders, this`carts, billing
      ensures Valid()
      ensures r.Err? ==> carts == old(carts) && orders == old(orders) && billing.Tables() == old(billing.Tables())
      ensures var active := ActiveOf(old(carts), tenant, customer);
              && (active.None? ==> r == Err(NotFound))
              && (active.Some? && ItemsOf(old(carts), active) == [] ==> r == Err(InvariantViolation))
              && (active.Some? && ItemsOf(old(carts), active) != [] && r.Err? ==>
                    PlaceFails(catalogue, old(orders), old(billing.Tables()), tenant, order,
                               Wanted(ItemsOf(old(carts), active)), provider, newPayment, checkout, r.error))
              && (r.Ok? ==>
                    && active.Some?
                    && carts == old(carts)[active.value := old(carts)[active.value].(status := CheckedOut)]
                    && order in orders && orders == old(orders)[order := orders[order]]
                    && var items, o := old(carts)[active.value].items, orders[order];
                       && o.customer == customer && o.status == AwaitingPayment && o.payment == Some(r.value.payment)
                       && SameGoods(items, o.lines) && PricedAt(catalogue, Wanted(items), o.lines, o.currency)
                       && o.total == Total(o.lines)
                       && r.value.payment in billing.payments
                       && billing.payments[r.value.payment].money == Money(o.total, o.currency))
    {
      var active := FindActive(tenant, customer);
      if active.None? {
        return Err(NotFound);
      }
      var cart := carts[active.value];
      if cart.items == [] {
        return Err(InvariantViolation);
      }
      var wanted := Wanted(cart.items);
      r := PlaceOrder(tenant, customer, order, wanted, provider, newPayment, checkout);
      if r.Err? {
        return;
      }
      CartReplaced(carts, active.value, cart.(status := CheckedOut));
      carts := carts[active.value := cart.(status := CheckedOut)];
    }

    // -------------------------------------------------------------- payment events

    method MarkPaid(order: string, payment: Option<Id>, late: bool) returns (found: Option<Order>)
      modifies this`orders, this`emitted
      ensures OrderBook() == Handlers.MarkPaid(old(OrderBook()), order, payment, late)
      ensures found.Some? <==> order in orders && orders[order].status == Paid
      ensures found.Some? ==> found.value == orders[order]
    {
      if order !in orders {
        return None;
      }
      var o := orders[order];
      if o.status == Paid {
        return Some(o);
      }
      var revived := o.status == Dropped;
      if revived && !(late && payment.Some? && o.payment == payment) {
        return None;
      }
      o := o.(status := Paid);
      if payment.Some? {
        o := o.(payment := payment);
      }
      orders := orders[order := o];
      emitted := emitted + [OrderPaid(order, payment, revived)];
      found := Some(o);
    }

    method Cancel(order: string, reason: PaymentStatus)
      modifies this`orders, this`emitted
      ensures OrderBook() == CancelOrder(old(OrderBook()), order, reason)
    {
      if order !in orders || orders[order].status == Paid || orders[order].status == Dropped {
        return;
      }
      orders := orders[order := orders[order].(status := Dropped)];
      emitted := emitted + [OrderCanceled(order, reason)];
    }

    /** The subscribers: each delivery of a payment event, in whatever order it comes. */
    method Consume(deliveries: seq<Event>)
      modifies this`orders, this`emitted
      ensures OrderBook() == HandleAll(old(OrderBook()), deliveries)
    {
      for i := 0 to |deliveries|
        invariant OrderBook() == HandleAll(old(OrderBook()), deliveries[..i])
      {
        assert deliveries[..i + 1][..i] == deliveries[..i];
        var e := deliveries[i];
        if Settles(e) && e.target.ForCaller? && e.target.purpose == ORDER_PURPOSE && e.target.reference != "" {
          if e.PaymentSucceeded? {
            var _ := MarkPaid(e.target.reference, Some(e.payment), e.late);
          } else {
            Cancel(e.target.reference, e.status);
          }
        }
      }
      assert deliveries[..|deliveries|] == deliveries;
    }
  }

  /** The order lines a cart asks for. */
  function Wanted(items: seq<Item>): seq<LineIn> {
    seq(|items|, i requires 0 <= i < |items| => LineIn(items[i].product, items[i].quantity))
  }

  /** The same products in the same quantities, line by line. */
  predicate SameGoods(items: seq<Item>, lines: seq<Line>) {
    && |items| == |lines|
    && forall i :: 0 <= i < |items| ==> items[i].product == lines[i].product && items[i].quantity == lines[i].quantity
  }
}
