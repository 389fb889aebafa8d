/**
 * `POST /orders`: the checks a submitted cart goes through and the priced
 * order it becomes. `PlaceOrder` says what the handler answers for every
 * input; `CreateOrder` is the handler itself, step by step.
 */
module Orders {
  import opened Wrappers
  import opened Calendar
  import opened Catalog
  import opened Text

  datatype Mode = Pickup | Delivery

  /** One cart line: a product id and a quantity. The client sends no price. */
  datatype Item = Item(id: int, qty: int)

  /** The customer block; the address may be left out altogether. */
  datatype Customer = Customer(name: string, phone: string, address: Option<string>)

  datatype OrderIn = OrderIn(customer: Customer, items: seq<Item>, mode: Mode)

  /** What the payment provider did, when checkout is switched on at all. */
  datatype Checkout =
    | CheckoutDisabled
    | SessionCreated(url: string)
    | SessionFailed(reason: string)

  datatype OrderError =
    | EmptyCart
    | IncompatibleProduct
    | AddressRequired
    | InvalidProduct
    | PaymentSessionFailed(reason: string)

  /** A stored `order_items` row: product, quantity and the unit price charged. */
  datatype OrderLine = OrderLine(productId: int, qty: int, unitPrice: nat)

  /** A stored `orders` row together with its line items. */
  datatype Order = Order(
    customerName: string,
    customerPhone: string,
    customerAddress: string,
    total: int,
    checkoutUrl: Option<string>,
    mode: Mode,
    deliveryDate: Option<Date>,
    lines: seq<OrderLine>)

  datatype OrderResult = Placed(order: Order) | Rejected(error: OrderError)

  /** The shape the request validation guarantees: every quantity is at least 1. */
  predicate WellFormed(p: OrderIn) {
    forall i :: 0 <= i < |p.items| ==> p.items[i].qty >= 1
  }

  /** The one product id a cart may hold in the given mode. */
  function AllowedId(mode: Mode): (id: int)
    ensures id in SeedRows
    ensures id == DeliveryBundleId <==> mode == Delivery
  {
    if mode == Delivery then DeliveryBundleId else PickupPackId
  }

  /**
   * `[it.id for it in items if it.id != allowed]`: the ids of the offending
   * lines, in cart order.
   */
  function Mismatched(items: seq<Item>, allowed: int): (ids: seq<int>)
    ensures |ids| <= |items|
    ensures forall j :: 0 <= j < |ids| ==> ids[j] != allowed
    ensures forall j :: 0 <= j < |ids| ==> exists i :: 0 <= i < |items| && items[i].id == ids[j]
    ensures ids == [] <==> forall i :: 0 <= i < |items| ==> items[i].id == allowed
  {
    if items == [] then []
    else if items[0].id != allowed then [items[0].id] + Mismatched(items[1..], allowed)
    else Mismatched(items[1..], allowed)
  }

  /** `not address or not address.strip()`: missing, empty or only whitespace. */
  predicate AddressBlank(address: Option<string>)
    ensures AddressBlank(address) <==> address.None? || AllSpace(address.value)
  {
    address.None? || Strip(address.value) == []
  }

  /** `address or ""`: what the `orders` row stores as the address. */
  function StoredAddress(address: Option<string>): (stored: string)
    ensures address.Some? ==> stored == address.value
    ensures address.None? ==> stored == ""
    ensures AllSpace(stored) <==> AddressBlank(address)
  {
    if address.Some? then address.value else ""
  }

  /** `{i.id for i in items}` */
  function ItemIds(items: seq<Item>): (ids: set<int>)
    ensures forall i :: 0 <= i < |items| ==> items[i].id in ids
    ensures forall id :: id in ids ==> exists i :: 0 <= i < |items| && items[i].id == id
  {
    set i | 0 <= i < |items| :: items[i].id
  }

  /** Every line's product has a price in `prices`. */
  predicate Priced(items: seq<Item>, prices: map<int, Product>) {
    forall i :: 0 <= i < |items| ==> items[i].id in prices
  }

  /** Σ price × qty over the lines, accumulated from the first line on. */
  function Sum(items: seq<Item>, prices: map<int, Product>): int
    requires Priced(items, prices)
  {
    if items == [] then 0
    else
      var last := items[|items| - 1];
      Sum(items[..|items| - 1], prices) + prices[last.id].price * last.qty
  }

  /** The stored line for one cart line. */
  function LineFor(it: Item, prices: map<int, Product>): OrderLine
    requires it.id in prices
  {
    OrderLine(it.id, it.qty, prices[it.id].price)
  }

  /** One stored line per cart line, in cart order. */
  function Lines(items: seq<Item>, prices: map<int, Product>): seq<OrderLine>
    requires Priced(items, prices)
  {
    seq(|items|, i requires 0 <= i < |items| => LineFor(items[i], prices))
  }

  /** Every line holds the one product the mode allows. */
  predicate Compatible(p: OrderIn) {
    forall i :: 0 <= i < |p.items| ==> p.items[i].id == AllowedId(p.mode)
  }

  /** The address passes: pickup never needs one; delivery needs a non-blank one. */
  predicate AddressAccepted(p: OrderIn) {
    p.mode == Pickup || (p.customer.address.Some? && !AllSpace(p.customer.address.value))
  }

  /**
   * The request checks, in the order the handler makes them; the first
   * that fails names the error.
   */
  function CheckCart(p: OrderIn): (failure: Option<OrderError>)
    ensures failure == None <==>
      p.items != [] && Compatible(p) && AddressAccepted(p)
    ensures failure.Some? ==> failure.value in {EmptyCart, IncompatibleProduct, AddressRequired}
  {
    if p.items == [] then Some(EmptyCart)
    else if Mismatched(p.items, AllowedId(p.mode)) != [] then Some(IncompatibleProduct)
    else if p.mode == Delivery && AddressBlank(p.customer.address) then Some(AddressRequired)
    else None
  }

  /**
   * Pricing a cart that passed the checks: every product must be in the
   * table, the checkout session (if any) must not fail, and the order is
   * built from the table's prices.
   */
  function PriceCart(rows: map<int, Product>, p: OrderIn, deliveryDate: Option<Date>, payment: Checkout): (r: OrderResult)
    ensures r.Placed? <==> Priced(p.items, rows) && !payment.SessionFailed?
    ensures r.Rejected? ==> r.error == InvalidProduct || r.error.PaymentSessionFailed?
    ensures r.Placed? ==>
      && r.order.mode == p.mode
      && r.order.deliveryDate == deliveryDate
      && r.order.customerName == p.customer.name
      && r.order.customerPhone == p.customer.phone
      && r.order.customerAddress == StoredAddress(p.customer.address)
      && (r.order.checkoutUrl.Some? <==> payment.SessionCreated?)
      && (payment.SessionCreated? ==> r.order.checkoutUrl == Some(payment.url))
      && |r.order.lines| == |p.items|
  {
    var prices := Lookup(rows, ItemIds(p.items));
    if !Priced(p.items, prices) then Rejected(InvalidProduct)
    else if payment.SessionFailed? then Rejected(PaymentSessionFailed(payment.reason))
    else
      Placed(Order(
        p.customer.name, p.customer.phone, StoredAddress(p.customer.address),
        Sum(p.items, prices),
        if payment.SessionCreated? then Some(payment.url) else None,
        p.mode, deliveryDate, Lines(p.items, prices)))
  }

  /**
   * The handler's answer for every request, with `today` standing for the
   * clock and `payment` for the payment provider.
   */
  function PlaceOrder(rows: map<int, Product>, p: OrderIn, today: Date, payment: Checkout): (r: OrderResult)
    requires InRange(today)
    ensures r.Placed? <==> CheckCart(p) == None && Priced(p.items, rows) && !payment.SessionFailed?
    ensures r.Placed? ==> (r.order.deliveryDate.Some? <==> p.mode == Delivery)
  {
    match CheckCart(p)
    case Some(e) => Rejected(e)
    case None =>
      PriceCart(rows, p, if p.mode == Delivery then Some(NextFriday(today)) else None, payment)
  }

  /**
   * The pricing loop: add price × qty line by line, giving up at the first
   * line whose product the table did not return.
   */
  method AddUp(items: seq<Item>, dbProducts: map<int, Product>) returns (total: Option<int>)
    ensures total.None? <==> !Priced(items, dbProducts)
    ensures total.Some? ==> Priced(items, dbProducts) && total.value == Sum(items, dbProducts)
  {
    var running := 0;
    var k := 0;
    while k < |items|
      invariant 0 <= k <= |items|
      invariant Priced(items[..k], dbProducts)
      invariant running == Sum(items[..k], dbProducts)
    {
      if items[k].id !in dbProducts {
        return None;
      }
      assert items[..k + 1][..k] == items[..k];
      running := running + dbProducts[items[k].id].price * items[k].qty;
      k := k + 1;
    }
    assert items[..k] == items;
    return Some(running);
  }

  /** The line-item loop: one stored line per cart line, in cart order. */
  method StoreLines(items: seq<Item>, dbProducts: map<int, Product>) returns (lines: seq<OrderLine>)
    requires Priced(items, dbProducts)
    ensures |lines| == |items|
    ensures forall j :: 0 <= j < |items| ==>
      lines[j] == OrderLine(items[j].id, items[j].qty, dbProducts[items[j].id].price)
  {
    lines := [];
    var k := 0;
    while k < |items|
      invariant 0 <= k <= |items|
      invariant |lines| == k
      invariant forall j :: 0 <= j < k ==> lines[j] == LineFor(items[j], dbProducts)
    {
      lines := lines + [LineFor(items[k], dbProducts)];
      k := k + 1;
    }
  }

  /**
   * The order handler: validate, read the prices from the table, add up the
   * total, ask for a checkout session, and build the order header and its
   * line items.
   */
  method CreateOrder(table: ProductTable, payload: OrderIn, today: Date, payment: Checkout)
    returns (r: OrderResult)
    requires InRange(today)
    ensures r == PlaceOrder(table.rows, payload, today, payment)
  {
    if payload.items == [] {
      return Rejected(EmptyCart);
    }

    var allowedId := AllowedId(payload.mode);
    var invalid := Mismatched(payload.items, allowedId);
    if invalid != [] {
      return Rejected(IncompatibleProduct);
    }

    var deliveryDate: Option<Date>;
    if payload.mode == Delivery {
      if AddressBlank(payload.customer.address) {
        return Rejected(AddressRequired);
      }
      deliveryDate := Some(NextFriday(today));
    } else {
      deliveryDate := None;
    }
    assert CheckCart(payload) == None;

    var items := payload.items;
    var dbProducts := Lookup(table.rows, ItemIds(items));

    var total := AddUp(items, dbProducts);
    if total.None? {
      return Rejected(InvalidProduct);
    }

    var checkoutUrl: Option<string> := None;
    match payment {
      case SessionFailed(reason) =>
        return Rejected(PaymentSessionFailed(reason));
      case SessionCreated(url) =>
        checkoutUrl := Some(url);
      case CheckoutDisabled =>
    }

    var lines := StoreLines(items, dbProducts);
    assert lines == Lines(items, dbProducts);

    var customer := payload.customer;
    r := Placed(Order(customer.name, customer.phone, StoredAddress(customer.address),
                      total.value, checkoutUrl, payload.mode, deliveryDate, lines));
  }
}
