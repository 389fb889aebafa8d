/**
 * What the order handler promises, stated over `PlaceOrder` (and so, through
 * `CreateOrder`'s postcondition, over the handler itself): the order of the
 * checks, the all-or-nothing rejection, the address rule, the delivery date,
 * and a total that is the catalog sum of the cart.
 */
module OrderProperties {
  import opened Wrappers
  import opened Calendar
  import opened Catalog
  import opened Text
  import opened Orders

  /** Σ unit price × qty over stored lines. */
  function LinesTotal(lines: seq<OrderLine>): int {
    if lines == [] then 0 else lines[0].unitPrice * lines[0].qty + LinesTotal(lines[1..])
  }

  /** Σ qty over the cart. */
  function QtySum(items: seq<Item>): int {
    if items == [] then 0 else items[0].qty + QtySum(items[1..])
  }

  // ---------------------------------------------------------------- checks

  /** An empty cart is refused whatever the mode, address, catalog or payment. */
  lemma EmptyCartAlwaysRejected(rows: map<int, Product>, p: OrderIn, today: Date, payment: Checkout)
    requires InRange(today)
    requires p.items == []
    ensures PlaceOrder(rows, p, today, payment) == Rejected(EmptyCart)
  {
  }

  /**
   * One line with the wrong product refuses the whole cart, whatever the
   * other lines, the address, the catalog and the payment.
   */
  lemma OneWrongLineRejectsCart(rows: map<int, Product>, p: OrderIn, today: Date, payment: Checkout, i: int)
    requires InRange(today)
    requires 0 <= i < |p.items| && p.items[i].id != AllowedId(p.mode)
    ensures PlaceOrder(rows, p, today, payment) == Rejected(IncompatibleProduct)
  {
  }

  /** The incompatible-products error is given exactly when the cart is non-empty and not compatible. */
  lemma IncompatibleProductIff(rows: map<int, Product>, p: OrderIn, today: Date, payment: Checkout)
    requires InRange(today)
    ensures PlaceOrder(rows, p, today, payment) == Rejected(IncompatibleProduct)
        <==> p.items != [] && !Compatible(p)
  {
  }

  /**
   * The address error is given exactly when a non-empty, compatible
   * delivery cart comes with a missing, empty or whitespace-only address.
   */
  lemma AddressRequiredIff(rows: map<int, Product>, p: OrderIn, today: Date, payment: Checkout)
    requires InRange(today)
    ensures PlaceOrder(rows, p, today, payment) == Rejected(AddressRequired)
        <==> p.items != [] && Compatible(p) && !AddressAccepted(p)
  {
  }

  /**
   * The invalid-product error is given exactly when every earlier check
   * passes and some line's product is not in the table.
   */
  lemma InvalidProductIff(rows: map<int, Product>, p: OrderIn, today: Date, payment: Checkout)
    requires InRange(today)
    ensures PlaceOrder(rows, p, today, payment) == Rejected(InvalidProduct)
        <==> p.items != [] && Compatible(p) && AddressAccepted(p) && !Priced(p.items, rows)
  {
  }

  /**
   * A failed checkout session refuses the order only after every check and
   * the pricing have passed; the order is placed exactly when no check
   * fails and the session did not fail, and it carries a checkout link
   * exactly when a session was created.
   */
  lemma PlacedIff(rows: map<int, Product>, p: OrderIn, today: Date, payment: Checkout)
    requires InRange(today)
    ensures var r := PlaceOrder(rows, p, today, payment);
      && (r.Rejected? && r.error.PaymentSessionFailed? <==>
            p.items != [] && Compatible(p) && AddressAccepted(p) && Priced(p.items, rows)
            && payment.SessionFailed?)
      && (r.Placed? <==>
            p.items != [] && Compatible(p) && AddressAccepted(p) && Priced(p.items, rows)
            && !payment.SessionFailed?)
      && (r.Placed? ==> (r.order.checkoutUrl.Some? <==> payment.SessionCreated?))
  {
  }

  /**
   * A pickup order never looks at the address: changing it changes neither
   * the verdict nor anything of the order except the stored address.
   */
  lemma PickupIgnoresAddress(rows: map<int, Product>, p: OrderIn, today: Date, payment: Checkout, other: Option<string>)
    requires InRange(today)
    requires p.mode == Pickup
    ensures var q := p.(customer := p.customer.(address := other));
      var r1, r2 := PlaceOrder(rows, p, today, payment), PlaceOrder(rows, q, today, payment);
      && (r1.Rejected? <==> r2.Rejected?)
      && (r1.Rejected? ==> r1 == r2)
      && (r1.Placed? ==> r1.order.(customerAddress := "") == r2.order.(customerAddress := ""))
  {
  }

  // ---------------------------------------------------------------- delivery date

  /**
   * A placed order has a delivery date exactly when it is a delivery; the
   * date is a Friday, at most six days ahead, and is today when today is a
   * Friday.
   */
  lemma DeliveryDateOnlyForDelivery(rows: map<int, Product>, p: OrderIn, today: Date, payment: Checkout)
    requires InRange(today)
    requires PlaceOrder(rows, p, today, payment).Placed?
    ensures var o := PlaceOrder(rows, p, today, payment).order;
      && (o.deliveryDate.Some? <==> p.mode == Delivery)
      && (o.deliveryDate.Some? ==>
            && Weekday(o.deliveryDate.value) == Friday
            && today.ordinal <= o.deliveryDate.value.ordinal <= today.ordinal + 6
            && (o.deliveryDate.value == today <==> Weekday(today) == Friday))
  {
  }

  // ---------------------------------------------------------------- pricing

  /** The sum reads only the prices of the products in the cart. */
  lemma {:induction false} SumUsesCartPricesOnly(items: seq<Item>, a: map<int, Product>, b: map<int, Product>)
    requires Priced(items, a) && Priced(items, b)
    requires forall i :: 0 <= i < |items| ==> a[items[i].id].price == b[items[i].id].price
    ensures Sum(items, a) == Sum(items, b)
  {
    if items != [] {
      SumUsesCartPricesOnly(items[..|items| - 1], a, b);
    }
  }

  /** Adding up the cart line by line gives the total of the stored lines. */
  lemma {:induction false} SumIsLinesTotal(items: seq<Item>, prices: map<int, Product>)
    requires Priced(items, prices)
    ensures Sum(items, prices) == LinesTotal(Lines(items, prices))
  {
    if items != [] {
      var n := |items| - 1;
      SumIsLinesTotal(items[..n], prices);
      LinesTotalSnoc(Lines(items[..n], prices), LineFor(items[n], prices));
      assert Lines(items, prices) == Lines(items[..n], prices) + [LineFor(items[n], prices)];
    }
  }

  /** Appending one line adds its amount to the total. */
  lemma {:induction false} LinesTotalSnoc(lines: seq<OrderLine>, l: OrderLine)
    ensures LinesTotal(lines + [l]) == LinesTotal(lines) + l.unitPrice * l.qty
  {
    if lines != [] {
      LinesTotalSnoc(lines[1..], l);
      assert (lines + [l])[1..] == lines[1..] + [l];
    }
  }

  /**
   * A placed order's total is Σ catalog price × qty over the cart, and it
   * equals the total of its stored lines.
   */
  lemma TotalIsCatalogSum(rows: map<int, Product>, p: OrderIn, today: Date, payment: Checkout)
    requires InRange(today)
    requires PlaceOrder(rows, p, today, payment).Placed?
    ensures Priced(p.items, rows)
    ensures var o := PlaceOrder(rows, p, today, payment).order;
      && o.total == Sum(p.items, rows)
      && o.total == LinesTotal(o.lines)
  {
    var prices := Lookup(rows, ItemIds(p.items));
    assert forall i :: 0 <= i < |p.items| ==> p.items[i].id in ItemIds(p.items);
    SumUsesCartPricesOnly(p.items, prices, rows);
    SumIsLinesTotal(p.items, prices);
  }

  /**
   * A placed order stores one line per cart line, in cart order, with the
   * line's product and quantity and the catalog price used for the total.
   */
  lemma LinesRecordCart(rows: map<int, Product>, p: OrderIn, today: Date, payment: Checkout)
    requires InRange(today)
    requires PlaceOrder(rows, p, today, payment).Placed?
    ensures var o := PlaceOrder(rows, p, today, payment).order;
      && |o.lines| == |p.items|
      && forall i :: 0 <= i < |p.items| ==>
           && p.items[i].id in rows
           && o.lines[i] == OrderLine(p.items[i].id, p.items[i].qty, rows[p.items[i].id].price)
  {
    assert forall i :: 0 <= i < |p.items| ==> p.items[i].id in ItemIds(p.items);
  }

  // ---------------------------------------------------------------- the seeded catalog

  /** Against the seeded table the invalid-product error cannot happen. */
  lemma SeedNeverInvalidProduct(p: OrderIn, today: Date, payment: Checkout)
    requires InRange(today)
    ensures PlaceOrder(SeedRows, p, today, payment) != Rejected(InvalidProduct)
  {
    if p.items != [] && Compatible(p) {
      assert AllowedId(p.mode) in SeedRows;
      assert Priced(p.items, SeedRows);
    }
    InvalidProductIff(SeedRows, p, today, payment);
  }

  /** When every line has the same price, the sum is that price times the total quantity. */
  lemma {:induction false} SumAtOnePrice(items: seq<Item>, prices: map<int, Product>, price: nat)
    requires Priced(items, prices)
    requires forall i :: 0 <= i < |items| ==> prices[items[i].id].price == price
    ensures Sum(items, prices) == price * QtySum(items)
  {
    if items != [] {
      var n := |items| - 1;
      SumAtOnePrice(items[..n], prices, price);
      QtySumSnoc(items[..n], items[n]);
      assert items[..n] + [items[n]] == items;
    }
  }

  lemma {:induction false} QtySumSnoc(items: seq<Item>, it: Item)
    ensures QtySum(items + [it]) == QtySum(items) + it.qty
  {
    if items != [] {
      QtySumSnoc(items[1..], it);
      assert (items + [it])[1..] == items[1..] + [it];
    }
  }

  /** With quantities of at least one, the total quantity is at least the number of lines. */
  lemma {:induction false} QtySumAtLeastLength(items: seq<Item>)
    requires forall i :: 0 <= i < |items| ==> items[i].qty >= 1
    ensures QtySum(items) >= |items|
  {
    if items != [] {
      QtySumAtLeastLength(items[1..]);
    }
  }

  /**
   * Against the seeded table a placed order costs 5.00 per pickup pack or
   * 14.00 per delivery bundle, so a well-formed order is never free.
   */
  lemma SeedTotal(p: OrderIn, today: Date, payment: Checkout)
    requires InRange(today)
    requires WellFormed(p)
    requires PlaceOrder(SeedRows, p, today, payment).Placed?
    ensures var o := PlaceOrder(SeedRows, p, today, payment).order;
      && o.total == (if p.mode == Delivery then 1400 else 500) * QtySum(p.items)
      && o.total >= 500 * |p.items| > 0
  {
    TotalIsCatalogSum(SeedRows, p, today, payment);
    SumAtOnePrice(p.items, SeedRows, if p.mode == Delivery then 1400 else 500);
    QtySumAtLeastLength(p.items);
  }

  // ---------------------------------------------------------------- worked cases

  /** Two pickup packs, no address: 10.00 and no delivery date. */
  lemma PickupScenario(today: Date)
    requires InRange(today)
    ensures PlaceOrder(SeedRows, OrderIn(Customer("Ana", "912345678", Some("")), [Item(1, 2)], Pickup),
                       today, CheckoutDisabled)
         == Placed(Order("Ana", "912345678", "", 1000, None, Pickup, None, [OrderLine(1, 2, 500)]))
  {
    var items := [Item(1, 2)];
    assert 1 in ItemIds(items) by { assert items[0].id == 1; }
    assert ItemIds(items) == {1};
    var prices := Lookup(SeedRows, {1});
    assert Sum(items, prices) == 1000 by { assert items[..0] == []; }
    assert Lines(items, prices) == [OrderLine(1, 2, 500)];
  }

  /** One delivery bundle to a real address: 14.00, delivered on the next Friday. */
  lemma DeliveryScenario(today: Date)
    requires InRange(today)
    ensures PlaceOrder(SeedRows, OrderIn(Customer("Ana", "912345678", Some("Rua X, 10")), [Item(2, 1)], Delivery),
                       today, CheckoutDisabled)
         == Placed(Order("Ana", "912345678", "Rua X, 10", 1400, None, Delivery,
                         Some(NextFriday(today)), [OrderLine(2, 1, 1400)]))
  {
    var items := [Item(2, 1)];
    assert 2 in ItemIds(items) by { assert items[0].id == 2; }
    assert ItemIds(items) == {2};
    assert Strip("Rua X, 10") != [] by { assert !IsSpace("Rua X, 10"[0]); }
    var prices := Lookup(SeedRows, {2});
    assert Sum(items, prices) == 1400 by { assert items[..0] == []; }
    assert Lines(items, prices) == [OrderLine(2, 1, 1400)];
  }

  /**
   * The error cases: a pickup pack on a delivery with a blank address is an
   * incompatible product (not a missing address); a blank delivery address
   * is refused; an empty cart is refused.
   */
  lemma RejectedScenarios(today: Date, mode: Mode)
    requires InRange(today)
    ensures PlaceOrder(SeedRows, OrderIn(Customer("Ana", "912345678", Some("   ")), [Item(1, 1)], Delivery),
                       today, CheckoutDisabled) == Rejected(IncompatibleProduct)
    ensures PlaceOrder(SeedRows, OrderIn(Customer("Ana", "912345678", Some("   ")), [Item(2, 3)], Delivery),
                       today, CheckoutDisabled) == Rejected(AddressRequired)
    ensures PlaceOrder(SeedRows, OrderIn(Customer("Ana", "912345678", None), [], mode),
                       today, CheckoutDisabled) == Rejected(EmptyCart)
  {
    assert AllSpace("   ");
  }
}
