/** The payment processor's webhook (src/routes/stripeWebhook.js): a completed
    checkout session turns the paid cart into an order, appends the order to the
    customer and deletes the cart, so that a second delivery of the same event
    finds no cart. Signature checking is a boolean input; the generated order id
    is an input. */
module StripeWebhook {
  import opened Common
  import opened Models

  const CompletedEvent: string := "checkout.session.completed"

  /** The fields of an event the handler reads. */
  datatype Event = Event(
    kind: string,
    sessionId: string,
    cartId: string,
    customerId: string,
    shippingAddress: Option<string>)

  /** The order total: subtotal plus tax and shipping (absent reads as 0), less the
      discount and the gift-card amount. */
  function OrderTotal(cart: CartRecord): (t: real)
    ensures t + cart.discountAmount + cart.giftCardAmount == cart.subtotal + OrZero(cart.tax) + OrZero(cart.shipping)
  {
    cart.subtotal + OrZero(cart.tax) + OrZero(cart.shipping) - cart.discountAmount - cart.giftCardAmount
  }

  /** The order built from a paid cart, with the payment method it is recorded under.
      The session id goes to a field the Order schema does not declare, so it is
      dropped on save and the order has no payment id. */
  function OrderFor(cart: CartRecord, customerId: string, event: Event, now: int, paymentMethod: string): (o: Order)
    ensures |o.items| == |cart.items| && o.subtotal == cart.subtotal
    ensures forall i :: 0 <= i < |cart.items| ==> o.items[i] == cart.items[i].(image := None)
    ensures Subtotal(o.items) == Subtotal(cart.items)
    ensures o.tax == OrZero(cart.tax) && o.shipping == OrZero(cart.shipping)
    ensures o.total == o.subtotal + o.tax + o.shipping - cart.discountAmount - cart.giftCardAmount
    ensures o.discountCode == cart.discountCode && o.discountAmount == Some(cart.discountAmount)
    ensures o.giftCardUsed == Some(cart.giftCardAmount)
    ensures o.customerId == Some(customerId) && o.status == "processing" && o.paymentMethod == Some(paymentMethod)
    ensures o.paymentId == None && o.email == None
  {
    StoredLinesSubtotal(cart.items);
    Order(Some(customerId), None, StoredLines(cart.items), cart.subtotal, OrZero(cart.tax), OrZero(cart.shipping),
          OrderTotal(cart), cart.discountCode, Some(cart.discountAmount), Some(cart.giftCardAmount),
          None, Some(paymentMethod), "processing", event.shippingAddress, now)
  }

  /** The order as the handler writes it, recorded under "stripe". */
  function OrderAsWritten(cart: CartRecord, customerId: string, event: Event, now: int): Order {
    OrderFor(cart, customerId, event, now, "stripe")
  }

  /** As written the order can never be saved: "stripe" is not among the payment
      methods the Order schema declares, so the save throws before the customer is
      updated or the cart deleted, and no paid session ever becomes an order. */
  lemma WebhookOrderRejected(cart: CartRecord, customerId: string, event: Event, now: int)
    ensures !OrderSchemaAccepts(OrderAsWritten(cart, customerId, event, now))
  {
  }

  /** The handler's answer as written, given the stored carts and the ids of the
      stored customers. The order's save always throws and nothing catches it, so a
      completed session whose cart and customer exist gets no answer (None), and
      nothing is written on any path. A redelivery finds the same cart and fails
      the same way. */
  function ResponseAsWritten(signatureValid: bool, event: Event, carts: map<string, CartRecord>,
                             customerIds: set<string>, now: int): (r: Option<int>)
    ensures !signatureValid ==> r == Some(400)
    ensures r.None? <==> signatureValid && event.kind == CompletedEvent &&
                         event.cartId in carts && event.customerId in customerIds
    ensures r.None? ==> !OrderSchemaAccepts(OrderAsWritten(carts[event.cartId], event.customerId, event, now))
    ensures signatureValid && r.Some? ==> r == Some(200)
  {
    if !signatureValid then Some(400)
    else if event.kind == CompletedEvent && event.cartId in carts && event.customerId in customerIds then
      WebhookOrderRejected(carts[event.cartId], event.customerId, event, now);
      None
    else Some(200)
  }

  /** The order recorded under "card", the schema's value for a card payment, which
      is the method a hosted checkout session takes. */
  function WebhookOrder(cart: CartRecord, customerId: string, event: Event, now: int): Order {
    OrderFor(cart, customerId, event, now, "card")
  }

  lemma WebhookOrderAccepted(cart: CartRecord, customerId: string, event: Event, now: int)
    ensures OrderSchemaAccepts(WebhookOrder(cart, customerId, event, now))
  {
  }

  /** The documents the handler reads and writes. Orders are kept with their ids in
      the order they were saved. */
  class Db {
    var carts: map<string, CartRecord>
    var customers: map<string, Customer>
    var orders: seq<(string, Order)>

    constructor (carts: map<string, CartRecord>, customers: map<string, Customer>)
      ensures this.carts == carts && this.customers == customers && orders == []
    {
      this.carts, this.customers, orders := carts, customers, [];
    }

    /** POST /webhooks/stripe. Returns the HTTP status: 400 for a bad signature with
        nothing written; otherwise 200, and for a completed session whose cart and
        customer both exist, the order is saved, its id appended to the customer's
        orders and the cart deleted. */
    method HandleEvent(signatureValid: bool, event: Event, orderId: string, now: int) returns (status: int)
      modifies this, if event.customerId in customers then {customers[event.customerId]} else {}
      ensures !signatureValid ==> status == 400
      ensures signatureValid ==> status == 200
      ensures customers == old(customers)
      ensures !signatureValid || event.kind != CompletedEvent ||
              event.cartId !in old(carts) || event.customerId !in old(customers) ==>
                carts == old(carts) && orders == old(orders) &&
                (event.customerId in customers ==> unchanged(customers[event.customerId]))
      ensures signatureValid && event.kind == CompletedEvent &&
              event.cartId in old(carts) && event.customerId in old(customers) ==>
                var customer := customers[event.customerId];
                orders == old(orders) + [(orderId, WebhookOrder(old(carts)[event.cartId], event.customerId, event, now))] &&
                customer.Snapshot() == old(customer.Snapshot()).(orders := old(customer.orders) + [orderId]) &&
                carts == old(carts) - {event.cartId}
    {
      if !signatureValid {
        return 400;
      }
      if event.kind == CompletedEvent {
        if event.cartId !in carts || event.customerId !in customers {
          return 200;
        }
        var cart := carts[event.cartId];
        var customer := customers[event.customerId];
        orders := orders + [(orderId, WebhookOrder(cart, event.customerId, event, now))];
        customer.orders := customer.orders + [orderId];
        carts := carts - {event.cartId};
      }
      status := 200;
    }
  }

  /** A delivery of the same event after it has been handled once adds no second
      order: the cart is gone, so the handler acknowledges and writes nothing. */
  method DeliverTwice(db: Db, event: Event, firstId: string, secondId: string, now: int)
    returns (first: int, second: int)
    modifies db, if event.customerId in db.customers then {db.customers[event.customerId]} else {}
    ensures first == 200 && second == 200
    ensures |old(db.orders)| <= |db.orders| <= |old(db.orders)| + 1
    ensures event.kind == CompletedEvent && event.customerId in old(db.customers) ==> event.cartId !in db.carts
    ensures db.orders[..|old(db.orders)|] == old(db.orders)
    ensures forall i :: |old(db.orders)| <= i < |db.orders| ==> db.orders[i].0 == firstId
  {
    first := db.HandleEvent(true, event, firstId, now);
    ghost var afterFirst := db.orders;
    second := db.HandleEvent(true, event, secondId, now);
    assert db.orders == afterFirst;
  }
}
