/** Checkout pricing (src/routes/checkout.js): the cart charge, the side-cart
    preview and the direct purchase from a product page. Every route is a pure
    function of the request, the stored documents it looks up and the payment
    processor's answer; an outcome says whether the processor was asked to charge
    and for how many cents. */
module Checkout {
  import opened Common
  import opened Models

  /** Tax on the cart charge; the preview and the direct purchase use 7% instead. */
  const SquareTaxRate: real := 0.0775
  const PreviewTaxRate: real := 0.07
  /** The processor's minimum charge, in cents. */
  const MinimumChargeCents: int := 100
  /** Shipping is free strictly above this subtotal and flat otherwise. */
  const FreeShippingOver: real := 100.0
  const FlatShipping: real := 10.0
  /** How far, in cents, the client's amount may drift from the server's. */
  const PriceTolerance: int := 2

  datatype Error =
    | MissingCartId
    | MissingPaymentToken
    | CartNotFound
    | MissingProductId
    | ProductNotFound
    | PriceMismatch

  /** What the processor returned; an absent payment is a failed charge. */
  datatype Payment = Payment(id: string, status: string, receiptUrl: Option<string>)

  datatype Totals = Totals(subtotal: real, tax: real, shipping: real, total: real)

  /** A route that may charge either rejects the request before any charge, or
      asks the processor for `amountCents`, which then declines or pays. */
  datatype Outcome<T> =
    | Rejected(error: Error)
    | Declined(amountCents: int)
    | Paid(amountCents: int, payment: Payment, value: T)
  {
    predicate Charged() { !Rejected? }
  }

  /** The shipping rule of the preview and of the direct purchase. */
  function ShippingFor(subtotal: real): (s: real)
    ensures s == 0.0 <==> subtotal > FreeShippingOver
    ensures s != 0.0 ==> s == FlatShipping
  {
    if subtotal > FreeShippingOver then 0.0 else FlatShipping
  }

  /** The integer amount sent to the processor: the total in cents, rounded, and
      never below the processor's minimum. */
  function ChargeCents(total: real): (c: int)
    ensures c >= MinimumChargeCents
    ensures c == MinimumChargeCents || total * 100.0 - 0.5 < c as real <= total * 100.0 + 0.5
    ensures total * 100.0 >= MinimumChargeCents as real ==> c == Round(total * 100.0)
  {
    Max(Round(total * 100.0), MinimumChargeCents)
  }

  /** The cart charge's totals: tax at 7.75% of the cart subtotal, plus the
      shipping the client sent (0 when absent). */
  function CartChargeTotals(items: seq<LineItem>, shipping: Option<real>): (t: Totals)
    ensures t.subtotal == Subtotal(items)
    ensures t.total == t.subtotal + t.tax + t.shipping && t.shipping == OrZero(shipping)
    ensures t.tax == t.subtotal * SquareTaxRate
  {
    var subtotal := Subtotal(items);
    var tax := subtotal * SquareTaxRate;
    Totals(subtotal, tax, OrZero(shipping), subtotal + tax + OrZero(shipping))
  }

  /** POST /square. The cart id and the payment token are checked before the cart
      is looked up, and no charge happens unless all three checks pass. */
  function CartCharge(cartId: Option<string>, sourceId: Option<string>, shipping: Option<real>,
                      carts: map<string, CartRecord>, answer: Option<Payment>): (o: Outcome<Totals>)
    ensures !Given(cartId) ==> o == Rejected(MissingCartId)
    ensures Given(cartId) && !Given(sourceId) ==> o == Rejected(MissingPaymentToken)
    ensures Given(cartId) && Given(sourceId) && cartId.value !in carts ==> o == Rejected(CartNotFound)
    ensures o.Charged() <==> Given(cartId) && Given(sourceId) && cartId.value in carts
    ensures o.Charged() ==>
      var t := CartChargeTotals(carts[cartId.value].items, shipping);
      o.amountCents == ChargeCents(t.total) && o.amountCents >= MinimumChargeCents &&
      (o.Paid? <==> answer.Some?) && (o.Paid? ==> o.value == t && o.payment == answer.value)
  {
    if !Given(cartId) then Rejected(MissingCartId)
    else if !Given(sourceId) then Rejected(MissingPaymentToken)
    else if cartId.value !in carts then Rejected(CartNotFound)
    else
      var t := CartChargeTotals(carts[cartId.value].items, shipping);
      var amount := ChargeCents(t.total);
      if answer.Some? then Paid(amount, answer.value, t) else Declined(amount)
  }

  /** The preview's totals: tax at 7% and the free-shipping rule. */
  function PreviewTotals(items: seq<LineItem>): (t: Totals)
    ensures t.subtotal == Subtotal(items)
    ensures t.tax == t.subtotal * PreviewTaxRate
    ensures t.shipping == (if t.subtotal > FreeShippingOver then 0.0 else FlatShipping)
    ensures t.total == t.subtotal + t.tax + t.shipping
  {
    var subtotal := Subtotal(items);
    var tax := subtotal * PreviewTaxRate;
    var shipping := ShippingFor(subtotal);
    Totals(subtotal, tax, shipping, subtotal + tax + shipping)
  }

  datatype Preview = Preview(totals: Totals, totalCents: int)

  /** POST /square/preview: totals and their rounded cent amount; nothing is charged
      (the result type has no payment in it). */
  function CartPreview(cartId: Option<string>, carts: map<string, CartRecord>): (r: Result<Preview, Error>)
    ensures !Given(cartId) ==> r == Err(MissingCartId)
    ensures Given(cartId) && cartId.value !in carts ==> r == Err(CartNotFound)
    ensures r.Ok? <==> Given(cartId) && cartId.value in carts
    ensures r.Ok? ==> r.value.totals == PreviewTotals(carts[cartId.value].items) &&
                      r.value.totalCents == Round(r.value.totals.total * 100.0)
  {
    if !Given(cartId) then Err(MissingCartId)
    else if cartId.value !in carts then Err(CartNotFound)
    else
      var t := PreviewTotals(carts[cartId.value].items);
      Ok(Preview(t, Round(t.total * 100.0)))
  }

  datatype DirectRequest = DirectRequest(
    sourceId: Option<string>,
    productId: Option<string>,
    quantity: int,
    size: Option<string>,
    color: Option<string>,
    customerId: Option<string>,
    email: Option<string>,
    amountCents: Option<int>,
    paymentMethod: Option<string>,
    shippingAddress: Option<string>)

  /** The server's totals for `quantity` units at the catalog price. */
  function DirectTotals(price: real, quantity: int): (t: Totals)
    ensures t.subtotal == price * quantity as real
    ensures t.tax == t.subtotal * PreviewTaxRate
    ensures t.shipping == ShippingFor(t.subtotal)
    ensures t.total == t.subtotal + t.shipping + t.tax
  {
    var itemTotal := price * quantity as real;
    var tax := itemTotal * PreviewTaxRate;
    var shipping := ShippingFor(itemTotal);
    Totals(itemTotal, tax, shipping, itemTotal + shipping + tax)
  }

  /** The tamper check: the client's amount differs from the server's by more than
      the tolerance. An absent client amount compares as NaN, which is never
      "more than", so it passes. */
  predicate AmountMismatch(serverCents: int, clientCents: Option<int>) {
    clientCents.Some? && Abs(serverCents - clientCents.value) > PriceTolerance
  }

  /** The order a successful direct purchase records. The route also passes the
      buyer's email, the payment id and the product's first image, none of which
      the Order schema declares, so the document keeps none of them. */
  function DirectOrder(req: DirectRequest, p: Product, t: Totals, now: int): Order {
    Order(
      if Given(req.customerId) then req.customerId else None,
      None,
      [LineItem(p.id, p.name, p.price, req.quantity, req.size, req.color, None)],
      t.subtotal, t.tax, t.shipping, t.total,
      None, None, None,
      None, req.paymentMethod, "paid", req.shippingAddress, now)
  }

  /** POST /square/direct. The request is checked and the amount compared before the
      processor is asked for anything; the charge is the server's amount, not the
      client's, and is not raised to the minimum. */
  function DirectPurchase(req: DirectRequest, catalog: map<string, Product>, answer: Option<Payment>,
                          now: int): (o: Outcome<Order>)
    ensures !Given(req.sourceId) ==> o == Rejected(MissingPaymentToken)
    ensures Given(req.sourceId) && !Given(req.productId) ==> o == Rejected(MissingProductId)
    ensures Given(req.sourceId) && Given(req.productId) && req.productId.value !in catalog ==>
              o == Rejected(ProductNotFound)
    ensures Given(req.sourceId) && Given(req.productId) && req.productId.value in catalog ==>
      var p := catalog[req.productId.value];
      var t := DirectTotals(p.price, req.quantity);
      var server := Round(t.total * 100.0);
      (AmountMismatch(server, req.amountCents) ==> o == Rejected(PriceMismatch)) &&
      (!AmountMismatch(server, req.amountCents) ==>
         o.Charged() && o.amountCents == server && (o.Paid? <==> answer.Some?))
    ensures o.Charged() && req.amountCents.Some? ==> Abs(o.amountCents - req.amountCents.value) <= PriceTolerance
    ensures o.Paid? ==>
      var order := o.value;
      var p := catalog[req.productId.value];
      |order.items| == 1 && order.items[0].price == p.price && order.items[0].quantity == req.quantity &&
      order.items[0].productId == p.id && order.items[0].name == p.name && order.items[0].image == None &&
      order.subtotal == p.price * req.quantity as real &&
      order.tax == order.subtotal * PreviewTaxRate && order.shipping == ShippingFor(order.subtotal) &&
      order.total == order.subtotal + order.shipping + order.tax &&
      o.amountCents == Round(order.total * 100.0) &&
      o.payment == answer.value && order.status == "paid" && order.paymentId == None && order.email == None &&
      order.customerId == (if Given(req.customerId) then req.customerId else None)
  {
    if !Given(req.sourceId) then Rejected(MissingPaymentToken)
    else if !Given(req.productId) then Rejected(MissingProductId)
    else if req.productId.value !in catalog then Rejected(ProductNotFound)
    else
      var p := catalog[req.productId.value];
      var t := DirectTotals(p.price, req.quantity);
      var server := Round(t.total * 100.0);
      if AmountMismatch(server, req.amountCents) then Rejected(PriceMismatch)
      else if answer.None? then Declined(server)
      else Paid(server, answer.value, DirectOrder(req, p, t, now))
  }

  /** The worked example of the cart charge: lines of 10.00 × 2 and 5.00 × 1 with
      10.00 shipping give a subtotal of 25.00, tax 1.9375, total 36.9375, and a
      charge of 3694 cents. */
  lemma CartChargeExample()
    ensures var items := [LineItem("a", "A", 10.0, 2, None, None, None), LineItem("b", "B", 5.0, 1, None, None, None)];
            var t := CartChargeTotals(items, Some(10.0));
            t.subtotal == 25.0 && t.tax == 1.9375 && t.total == 36.9375 && ChargeCents(t.total) == 3694
  {
    var items := [LineItem("a", "A", 10.0, 2, None, None, None), LineItem("b", "B", 5.0, 1, None, None, None)];
    assert items[..1] == [items[0]];
    assert Subtotal(items) == 25.0;
  }

  /** As written, the order a paid direct purchase builds cannot be saved: "paid" is
      not one of the Order schema's statuses. The card has then been charged and
      the route answers 500 with no order stored. */
  lemma DirectOrderRejected(req: DirectRequest, catalog: map<string, Product>, answer: Option<Payment>, now: int)
    requires DirectPurchase(req, catalog, answer, now).Paid?
    ensures !OrderSchemaAccepts(DirectPurchase(req, catalog, answer, now).value)
  {
  }

  /** The direct purchase with the order recorded as "processing", the status the
      schema gives an order that has been paid for and not yet shipped; every other
      part of the outcome is the route's. */
  function DirectPurchaseCorrected(req: DirectRequest, catalog: map<string, Product>, answer: Option<Payment>,
                                   now: int): (o: Outcome<Order>)
    ensures var w := DirectPurchase(req, catalog, answer, now);
            o.Rejected? == w.Rejected? && o.Declined? == w.Declined? && o.Paid? == w.Paid? &&
            (o.Rejected? ==> o.error == w.error) && (o.Charged() ==> o.amountCents == w.amountCents) &&
            (o.Paid? ==> o.payment == w.payment && o.value == w.value.(status := "processing"))
  {
    match DirectPurchase(req, catalog, answer, now)
    case Paid(cents, payment, order) => Paid(cents, payment, order.(status := "processing"))
    case other => other
  }

  /** With the corrected status, a paid purchase by a signed-in customer whose payment
      method is one the schema declares is stored. */
  lemma CorrectedDirectOrderSaves(req: DirectRequest, catalog: map<string, Product>, answer: Option<Payment>, now: int)
    requires DirectPurchaseCorrected(req, catalog, answer, now).Paid?
    requires Given(req.customerId)
    requires req.paymentMethod.None? || req.paymentMethod.value in PaymentMethods
    ensures OrderSchemaAccepts(DirectPurchaseCorrected(req, catalog, answer, now).value)
  {
  }
}
