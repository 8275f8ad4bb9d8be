/** The stored documents (the schemas under src/models): their fields, their defaults, and the
    schema validators the routes run into when they save. Documents the routes
    change in place are classes; documents they only read or build are datatypes.
    Money is an exact `real`; dates are integer milliseconds. */
module Models {
  import opened Common

  /** One entry of `Product.sizes`: a size label, its stock and its stock-keeping unit. */
  datatype SizeEntry = SizeEntry(size: string, stock: Option<int>, sku: Option<string>)

  /** A product image sub-document; `id` is the string form of its generated `_id`. */
  datatype Image = Image(id: string, url: string, alt: Option<string>)

  datatype Product = Product(
    id: string,
    name: string,
    description: string,
    price: real,
    salePrice: Option<real>,
    category: string,
    images: seq<Image>,
    sizes: seq<SizeEntry>,
    colors: seq<string>,
    createdAt: int)

  /** A cart or order line: a snapshot of the product at the time it was added. */
  datatype LineItem = LineItem(
    productId: string,
    name: string,
    price: real,
    quantity: int,
    size: Option<string>,
    color: Option<string>,
    image: Option<string>)

  /** A line's amount, price × quantity. */
  function LineTotal(l: LineItem): real {
    l.price * l.quantity as real
  }

  /** Σ price × quantity over the lines, folded from the left as `reduce` does. */
  function Subtotal(items: seq<LineItem>): real
  {
    if items == [] then 0.0
    else Subtotal(items[..|items| - 1]) + LineTotal(items[|items| - 1])
  }

  lemma SubtotalAppend(items: seq<LineItem>, line: LineItem)
    ensures Subtotal(items + [line]) == Subtotal(items) + line.price * line.quantity as real
  {
    assert (items + [line])[..|items|] == items;
  }

  /** Changing one line changes the subtotal by exactly that line's difference. */
  lemma {:induction false} SubtotalUpdate(items: seq<LineItem>, k: nat, line: LineItem)
    requires k < |items|
    ensures Subtotal(items[k := line]) ==
            Subtotal(items) - items[k].price * items[k].quantity as real + line.price * line.quantity as real
    decreases |items|
  {
    var n := |items|;
    if k < n - 1 {
      assert items[k := line][..n - 1] == items[..n - 1][k := line];
      SubtotalUpdate(items[..n - 1], k, line);
    } else {
      assert items[k := line][..n - 1] == items[..n - 1];
    }
  }

  /** A line as an order stores it: the Order schema's item sub-document does not
      declare `image`, so strict mode drops it. */
  function StoredLine(l: LineItem): (r: LineItem)
    ensures r.image == None && LineTotal(r) == LineTotal(l)
    ensures r.productId == l.productId && r.name == l.name && r.size == l.size && r.color == l.color
  {
    l.(image := None)
  }

  function StoredLines(items: seq<LineItem>): (r: seq<LineItem>)
    ensures |r| == |items|
    ensures forall i :: 0 <= i < |items| ==> r[i] == StoredLine(items[i])
  {
    seq(|items|, i requires 0 <= i < |items| => StoredLine(items[i]))
  }

  /** Dropping the images leaves the subtotal as it was. */
  lemma {:induction false} StoredLinesSubtotal(items: seq<LineItem>)
    ensures Subtotal(StoredLines(items)) == Subtotal(items)
    decreases |items|
  {
    if items != [] {
      var n := |items|;
      assert StoredLines(items)[..n - 1] == StoredLines(items[..n - 1]);
      StoredLinesSubtotal(items[..n - 1]);
    }
  }

  /** The stored fields of a cart, as read by checkout and by the webhook. */
  datatype CartRecord = CartRecord(
    items: seq<LineItem>,
    subtotal: real,
    tax: Option<real>,
    shipping: Option<real>,
    discountCode: Option<string>,
    discountAmount: real,
    giftCardAmount: real)

  /** A cart document. The schema's `min: 1` on a line's quantity means a save that
      would store a smaller quantity fails validation: every stored cart is Valid.
      The schema declares no `tax` or `shipping`, so those read back as absent. */
  class Cart {
    var items: seq<LineItem>
    var subtotal: real
    var discountCode: Option<string>
    var discountAmount: real
    var giftCardAmount: real
    var tax: Option<real>
    var shipping: Option<real>

    ghost predicate Valid()
      reads this
    {
      QuantitiesValid(items)
    }

    function Record(): CartRecord
      reads this
    {
      CartRecord(items, subtotal, tax, shipping, discountCode, discountAmount, giftCardAmount)
    }

    /** A new empty cart with the schema defaults. */
    constructor ()
      ensures Valid()
      ensures Record() == CartRecord([], 0.0, None, None, None, 0.0, 0.0)
    {
      items, subtotal := [], 0.0;
      discountCode, discountAmount, giftCardAmount := None, 0.0, 0.0;
      tax, shipping := None, None;
    }
  }

  /** The cart schema's validator: every quantity is at least 1. */
  predicate QuantitiesValid(items: seq<LineItem>) {
    forall i :: 0 <= i < |items| ==> items[i].quantity >= 1
  }

  /** The values the Order schema declares for `status` and `paymentMethod`. */
  const OrderStatuses: set<string> := {"pending", "processing", "shipped", "delivered", "cancelled"}
  const PaymentMethods: set<string> := {"card", "cash_app", "affirm", "apple_pay", "google_pay", "shop_pay", "gift_card"}

  /** An order document. `email` and `paymentId` stand for values the routes pass
      to `new Order` that the schema does not declare: strict mode drops them, so
      an order the core builds has None in both. */
  datatype Order = Order(
    customerId: Option<string>,
    email: Option<string>,
    items: seq<LineItem>,
    subtotal: real,
    tax: real,
    shipping: real,
    total: real,
    discountCode: Option<string>,
    discountAmount: Option<real>,
    giftCardUsed: Option<real>,
    paymentId: Option<string>,
    paymentMethod: Option<string>,
    status: string,
    shippingAddress: Option<string>,
    createdAt: int)

  /** What the Order schema's validators accept on save: a customer reference is
      required, and `status` and `paymentMethod` must be among the declared values. */
  predicate OrderSchemaAccepts(o: Order) {
    o.customerId.Some? && o.status in OrderStatuses &&
    (o.paymentMethod.Some? ==> o.paymentMethod.value in PaymentMethods)
  }

  /** Σ order.total over a list of orders. */
  function Revenue(orders: seq<Order>): real
  {
    if orders == [] then 0.0 else Revenue(orders[..|orders| - 1]) + orders[|orders| - 1].total
  }

  datatype InventoryRecord = InventoryRecord(
    productId: string,
    size: string,
    sku: Option<string>,
    color: string,
    quantity: int,
    reserved: int,
    restockThreshold: int)

  datatype GiftCardStatus = Active | Redeemed | Expired

  /** A gift-card document; `balance` and `status` change on redemption. */
  class GiftCard {
    const code: string
    const amount: real
    var balance: real
    var status: GiftCardStatus
    var redeemedAt: Option<int>
    const recipientEmail: Option<string>
    const recipientName: Option<string>
    const senderName: Option<string>
    const senderEmail: Option<string>
    const message: Option<string>

    /** A new digital card whose balance is its face amount; status takes the
        schema default, active. */
    constructor (code: string, amount: real, recipientEmail: Option<string>, recipientName: Option<string>,
                 senderName: Option<string>, senderEmail: Option<string>, message: Option<string>)
      ensures this.code == code && this.amount == amount && balance == amount
      ensures status == Active && redeemedAt == None
      ensures this.recipientEmail == recipientEmail && this.recipientName == recipientName
      ensures this.senderName == senderName && this.senderEmail == senderEmail && this.message == message
    {
      this.code, this.amount, balance := code, amount, amount;
      status, redeemedAt := Active, None;
      this.recipientEmail, this.recipientName := recipientEmail, recipientName;
      this.senderName, this.senderEmail, this.message := senderName, senderEmail, message;
    }
  }

  /** The stored fields of a customer. */
  datatype CustomerRecord = CustomerRecord(
    email: string,
    googleId: Option<string>,
    authProvider: Option<string>,
    passwordHash: Option<string>,
    firstName: Option<string>,
    lastName: Option<string>,
    phoneNumber: Option<string>,
    squareCustomerId: Option<string>,
    role: string,
    subscribedToNewsletter: bool,
    subscribedToSales: bool,
    giftCardBalance: real,
    orders: seq<string>)

  /** A customer document, with the fields the core routes read or write. */
  class Customer {
    var email: string
    var googleId: Option<string>
    var authProvider: Option<string>
    var passwordHash: Option<string>
    var firstName: Option<string>
    var lastName: Option<string>
    var phoneNumber: Option<string>
    var squareCustomerId: Option<string>
    var role: string
    var subscribedToNewsletter: bool
    var subscribedToSales: bool
    var giftCardBalance: real
    var orders: seq<string>

    function Snapshot(): CustomerRecord
      reads this
    {
      CustomerRecord(email, googleId, authProvider, passwordHash, firstName, lastName, phoneNumber,
                     squareCustomerId, role, subscribedToNewsletter, subscribedToSales, giftCardBalance, orders)
    }

    /** A new customer document with the schema defaults; the schema lower-cases
        the email it stores. */
    constructor (email: string, passwordHash: Option<string>)
      ensures this.email == Lower(email) && this.passwordHash == passwordHash
      ensures googleId == None && authProvider == None && role == "customer"
      ensures firstName == None && lastName == None && phoneNumber == None && squareCustomerId == None
      ensures !subscribedToNewsletter && !subscribedToSales && giftCardBalance == 0.0 && orders == []
    {
      this.email, this.passwordHash := Lower(email), passwordHash;
      googleId, authProvider, role := None, None, "customer";
      firstName, lastName, phoneNumber, squareCustomerId := None, None, None, None;
      subscribedToNewsletter, subscribedToSales := false, false;
      giftCardBalance, orders := 0.0, [];
    }
  }
}
