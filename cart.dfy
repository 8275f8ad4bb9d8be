/** The cart routes (src/routes/cart.js): add-or-merge a line, remove a line by
    index, edit a line's size, colour or quantity, and apply a discount code.
    Each route receives the cart document its lookup found (null when the lookup
    missed) and the product store, and changes the stored cart only when the
    source's save would succeed. */
module CartRoutes {
  import opened Common
  import opened Models

  datatype Status =
    | Done
    | ProductNotFound
    | CartNotFound
    | ItemNotFound
    | InvalidSize
    | InvalidColor
    | InvalidDiscountCode
    | ValidationFailed

  /** A line is "the same item" when product, size and colour all agree
      (an absent size or colour only matches an absent one). */
  predicate SameLine(item: LineItem, productId: string, size: Option<string>, color: Option<string>) {
    item.productId == productId && item.size == size && item.color == color
  }

  /** `cart.items.find(...)`: the index of the first line for the same item, if any. */
  function FindLine(items: seq<LineItem>, productId: string, size: Option<string>, color: Option<string>): (k: Option<nat>)
    ensures k.Some? ==> k.value < |items| && SameLine(items[k.value], productId, size, color)
    ensures k.Some? ==> forall i :: 0 <= i < k.value ==> !SameLine(items[i], productId, size, color)
    ensures k.None? ==> forall i :: 0 <= i < |items| ==> !SameLine(items[i], productId, size, color)
  {
    if items == [] then None
    else if SameLine(items[0], productId, size, color) then Some(0)
    else match FindLine(items[1..], productId, size, color)
      case None => None
      case Some(j) => Some(j + 1)
  }

  /** The price a new line captures: the sale price when set and non-zero, else the list price. */
  function CapturedPrice(p: Product): real {
    if p.salePrice.Some? && p.salePrice.value != 0.0 then p.salePrice.value else p.price
  }

  function NewLine(p: Product, productId: string, quantity: int, size: Option<string>, color: Option<string>): LineItem {
    LineItem(productId, p.name, CapturedPrice(p), quantity, size, color,
             if |p.images| > 0 then Some(p.images[0].url) else None)
  }

  /** The cart's lines after adding `quantity` of an item: merged into the first
      line for the same item, or appended as a new line. */
  function AddLine(items: seq<LineItem>, p: Product, productId: string, quantity: int,
                   size: Option<string>, color: Option<string>): seq<LineItem>
  {
    match FindLine(items, productId, size, color)
    case Some(k) => items[k := items[k].(quantity := items[k].quantity + quantity)]
    case None => items + [NewLine(p, productId, quantity, size, color)]
  }

  /** How many units of one item (product, size, colour) the lines hold in all. */
  function QuantityOf(items: seq<LineItem>, productId: string, size: Option<string>, color: Option<string>): int
  {
    if items == [] then 0
    else QuantityOf(items[..|items| - 1], productId, size, color) +
         (if SameLine(items[|items| - 1], productId, size, color) then items[|items| - 1].quantity else 0)
  }

  lemma {:induction false} QuantityOfUpdate(items: seq<LineItem>, k: nat, line: LineItem,
                                            productId: string, size: Option<string>, color: Option<string>)
    requires k < |items|
    requires SameLine(line, productId, size, color) == SameLine(items[k], productId, size, color)
    ensures QuantityOf(items[k := line], productId, size, color) ==
            QuantityOf(items, productId, size, color) +
            (if SameLine(line, productId, size, color) then line.quantity - items[k].quantity else 0)
    decreases |items|
  {
    var n := |items|;
    if k < n - 1 {
      assert items[k := line][..n - 1] == items[..n - 1][k := line];
      QuantityOfUpdate(items[..n - 1], k, line, productId, size, color);
    } else {
      assert items[k := line][..n - 1] == items[..n - 1];
    }
  }

  lemma QuantityOfAppend(items: seq<LineItem>, line: LineItem,
                         productId: string, size: Option<string>, color: Option<string>)
    ensures QuantityOf(items + [line], productId, size, color) ==
            QuantityOf(items, productId, size, color) +
            (if SameLine(line, productId, size, color) then line.quantity else 0)
  {
    assert (items + [line])[..|items|] == items;
  }

  /** Adding `quantity` of an item raises that item's total by exactly `quantity`
      and leaves every other item's total alone, whether it merged or appended. */
  lemma AddLineQuantities(items: seq<LineItem>, p: Product, productId: string, quantity: int,
                          size: Option<string>, color: Option<string>,
                          otherId: string, otherSize: Option<string>, otherColor: Option<string>)
    ensures QuantityOf(AddLine(items, p, productId, quantity, size, color), otherId, otherSize, otherColor) ==
            QuantityOf(items, otherId, otherSize, otherColor) +
            (if otherId == productId && otherSize == size && otherColor == color then quantity else 0)
  {
    var r := AddLine(items, p, productId, quantity, size, color);
    match FindLine(items, productId, size, color)
    case Some(k) =>
      var merged := items[k].(quantity := items[k].quantity + quantity);
      assert r == items[k := merged];
      QuantityOfUpdate(items, k, merged, otherId, otherSize, otherColor);
    case None =>
      var line := NewLine(p, productId, quantity, size, color);
      assert r == items + [line];
      QuantityOfAppend(items, line, otherId, otherSize, otherColor);
  }

  /** A matching line is merged (no new line); otherwise exactly one line, priced at
      the captured price, is appended. */
  lemma AddLineShape(items: seq<LineItem>, p: Product, productId: string, quantity: int,
                     size: Option<string>, color: Option<string>)
    ensures var r := AddLine(items, p, productId, quantity, size, color);
      ((exists i :: 0 <= i < |items| && SameLine(items[i], productId, size, color)) ==>
         |r| == |items| &&
         exists k :: 0 <= k < |items| && SameLine(items[k], productId, size, color) &&
                     (forall i :: 0 <= i < k ==> !SameLine(items[i], productId, size, color)) &&
                     r[k] == items[k].(quantity := items[k].quantity + quantity) &&
                     forall i :: 0 <= i < |items| && i != k ==> r[i] == items[i]) &&
      ((forall i :: 0 <= i < |items| ==> !SameLine(items[i], productId, size, color)) ==>
         r == items + [LineItem(productId, p.name, CapturedPrice(p), quantity, size, color,
                                if |p.images| > 0 then Some(p.images[0].url) else None)])
  {
    var r := AddLine(items, p, productId, quantity, size, color);
    match FindLine(items, productId, size, color)
    case Some(k) =>
      assert r == items[k := items[k].(quantity := items[k].quantity + quantity)];
      assert SameLine(items[k], productId, size, color) && r[k] == items[k].(quantity := items[k].quantity + quantity);
    case None =>
  }

  /** Raising one line's quantity by `quantity` raises the subtotal by that line's
      price times `quantity`. */
  lemma SubtotalMerge(items: seq<LineItem>, k: nat, quantity: int)
    requires k < |items|
    ensures Subtotal(items[k := items[k].(quantity := items[k].quantity + quantity)]) ==
            Subtotal(items) + items[k].price * quantity as real
  {
    var line := items[k];
    var merged := line.(quantity := line.quantity + quantity);
    SubtotalUpdate(items, k, merged);
    var a, b := line.quantity as real, quantity as real;
    assert merged.quantity as real == a + b;
    assert line.price * (a + b) == line.price * a + line.price * b;
  }

  /** When the item already has line `k`, the recomputed subtotal grows by exactly
      the added quantity times that line's stored price. */
  lemma AddLineSubtotalMerged(items: seq<LineItem>, p: Product, productId: string, quantity: int,
                              size: Option<string>, color: Option<string>, k: nat)
    requires FindLine(items, productId, size, color) == Some(k)
    ensures Subtotal(AddLine(items, p, productId, quantity, size, color)) ==
            Subtotal(items) + items[k].price * quantity as real
  {
    var r := AddLine(items, p, productId, quantity, size, color);
    assert r == items[k := items[k].(quantity := items[k].quantity + quantity)];
    SubtotalMerge(items, k, quantity);
  }

  /** When the item has no line yet, the recomputed subtotal grows by exactly the
      added quantity times the price the new line captures. */
  lemma AddLineSubtotalAppended(items: seq<LineItem>, p: Product, productId: string, quantity: int,
                                size: Option<string>, color: Option<string>)
    requires FindLine(items, productId, size, color).None?
    ensures Subtotal(AddLine(items, p, productId, quantity, size, color)) ==
            Subtotal(items) + CapturedPrice(p) * quantity as real
  {
    var line := NewLine(p, productId, quantity, size, color);
    assert AddLine(items, p, productId, quantity, size, color) == items + [line];
    SubtotalAppend(items, line);
  }

  /** POST /:cartId/items. */
  method AddItem(cart: Cart?, catalog: map<string, Product>, productId: string, quantity: int,
                 size: Option<string>, color: Option<string>) returns (s: Status)
    requires cart != null ==> cart.Valid()
    modifies cart
    ensures cart != null ==> cart.Valid()
    ensures productId !in catalog ==> s == ProductNotFound
    ensures productId in catalog && cart == null ==> s == CartNotFound
    ensures cart != null && s != Done ==> unchanged(cart)
    ensures cart != null && productId in catalog ==>
      (s == Done <==> QuantitiesValid(AddLine(old(cart.items), catalog[productId], productId, quantity, size, color)))
    ensures cart != null && productId in catalog && s != Done ==> s == ValidationFailed
    ensures cart != null && productId in catalog && s == Done ==>
      var r := AddLine(old(cart.items), catalog[productId], productId, quantity, size, color);
      cart.Record() == old(cart.Record()).(items := r, subtotal := Subtotal(r))
  {
    if productId !in catalog {
      return ProductNotFound;
    }
    if cart == null {
      return CartNotFound;
    }
    var product := catalog[productId];
    var items := cart.items;
    var k := FindLine(items, productId, size, color);
    if k.Some? {
      var i := k.value;
      items := items[i := items[i].(quantity := items[i].quantity + quantity)];
    } else {
      items := items + [NewLine(product, productId, quantity, size, color)];
    }
    assert items == AddLine(cart.items, product, productId, quantity, size, color);
    // The schema's `min: 1` on quantity rejects the save.
    if !QuantitiesValid(items) {
      return ValidationFailed;
    }
    cart.items := items;
    cart.subtotal := Subtotal(items);
    s := Done;
  }

  /** Where `splice(index, 1)` starts on a list of length `n`: a negative index
      counts from the end (clamped at 0), a large one is clamped to `n`. */
  function SpliceStart(n: nat, index: int): (k: nat)
    ensures k <= n
    ensures 0 <= index ==> k == if index <= n then index else n
    ensures index < 0 ==> k == if n + index >= 0 then n + index else 0
  {
    if index < 0 then (if n + index >= 0 then n + index else 0)
    else if index <= n then index else n
  }

  /** The lines after `cart.items.splice(index, 1)`. */
  function RemoveAt(items: seq<LineItem>, index: int): (r: seq<LineItem>)
    ensures r == items || (exists k :: 0 <= k < |items| && r == items[..k] + items[k + 1..])
    ensures r == items <==> items == [] || index >= |items|
    ensures 0 <= index < |items| ==> r == items[..index] + items[index + 1..]
    ensures -|items| <= index < 0 ==> r == items[..|items| + index] + items[|items| + index + 1..]
    ensures index < -|items| && items != [] ==> r == items[1..]
  {
    var k := SpliceStart(|items|, index);
    if k < |items| then
      assert |items[..k] + items[k + 1..]| < |items|;
      items[..k] + items[k + 1..]
    else items
  }

  /** Removing a line never produces a quantity the schema would reject. */
  lemma RemoveAtKeepsValid(items: seq<LineItem>, index: int)
    requires QuantitiesValid(items)
    ensures QuantitiesValid(RemoveAt(items, index))
  {
    var k := SpliceStart(|items|, index);
    if k < |items| {
      var r := RemoveAt(items, index);
      forall i | 0 <= i < |r| ensures r[i].quantity >= 1 {
        if i < k { assert r[i] == items[i]; } else { assert r[i] == items[i + 1]; }
      }
    }
  }

  /** DELETE /:cartId/items/:index. The subtotal is not recomputed. */
  method RemoveItem(cart: Cart?, index: int) returns (s: Status)
    requires cart != null ==> cart.Valid()
    modifies cart
    ensures cart != null ==> cart.Valid()
    ensures cart == null <==> s == CartNotFound
    ensures s == Done <==> cart != null
    ensures cart != null ==> cart.Record() == old(cart.Record()).(items := RemoveAt(old(cart.items), index))
  {
    if cart == null {
      return CartNotFound;
    }
    RemoveAtKeepsValid(cart.items, index);
    cart.items := RemoveAt(cart.items, index);
    s := Done;
  }

  /** `product.sizes.some(s => s.size === size)`. */
  predicate SizeOffered(p: Product, size: string) {
    exists i :: 0 <= i < |p.sizes| && p.sizes[i].size == size
  }

  /** One line after PUT /:cartId/items/:index: a given size must be one the
      product offers and a given colour one of its colours; a given quantity is
      raised to at least 1. Nothing else on the line changes. */
  function EditLine(item: LineItem, p: Product, size: Option<string>, color: Option<string>,
                    quantity: Option<int>): (r: Result<LineItem, Status>)
    ensures r.Err? <==> (Given(size) && !SizeOffered(p, size.value)) || (Given(color) && color.value !in p.colors)
    ensures r.Err? ==> r.error == (if Given(size) && !SizeOffered(p, size.value) then InvalidSize else InvalidColor)
    ensures r.Ok? ==> r.value.productId == item.productId && r.value.name == item.name &&
                      r.value.price == item.price && r.value.image == item.image
    ensures r.Ok? ==> r.value.size == (if Given(size) then size else item.size)
    ensures r.Ok? ==> r.value.color == (if Given(color) then color else item.color)
    ensures r.Ok? && quantity.Some? ==> r.value.quantity >= 1 &&
                                        r.value.quantity == Max(1, quantity.value)
    ensures r.Ok? && quantity.None? ==> r.value.quantity == item.quantity
  {
    if Given(size) && !SizeOffered(p, size.value) then Err(InvalidSize)
    else if Given(color) && color.value !in p.colors then Err(InvalidColor)
    else
      var withSize := if Given(size) then item.(size := size) else item;
      var withColor := if Given(color) then withSize.(color := color) else withSize;
      Ok(if quantity.Some? then withColor.(quantity := Max(1, quantity.value)) else withColor)
  }

  /** PUT /:cartId/items/:index. A rejected edit leaves the stored cart unchanged;
      the subtotal is not recomputed. */
  method UpdateItem(cart: Cart?, catalog: map<string, Product>, index: int,
                    size: Option<string>, color: Option<string>, quantity: Option<int>) returns (s: Status)
    requires cart != null ==> cart.Valid()
    modifies cart
    ensures cart != null ==> cart.Valid()
    ensures cart == null <==> s == CartNotFound
    ensures cart != null && s != Done ==> unchanged(cart)
    ensures cart != null && !(0 <= index < |old(cart.items)|) ==> s == ItemNotFound
    ensures cart != null && 0 <= index < |old(cart.items)| ==>
      var item := old(cart.items)[index];
      if item.productId !in catalog then s == ProductNotFound
      else var r := EditLine(item, catalog[item.productId], size, color, quantity);
        (r.Err? ==> s == r.error) &&
        (r.Ok? ==> s == Done && cart.Record() == old(cart.Record()).(items := old(cart.items)[index := r.value]))
  {
    if cart == null {
      return CartNotFound;
    }
    if !(0 <= index < |cart.items|) {
      return ItemNotFound;
    }
    var item := cart.items[index];
    if item.productId !in catalog {
      return ProductNotFound;
    }
    var r := EditLine(item, catalog[item.productId], size, color, quantity);
    if r.Err? {
      return r.error;
    }
    cart.items := cart.items[index := r.value];
    s := Done;
  }

  /** The fixed discount table: WELCOME10 takes 10%, SALE20 takes 20%; any other
      code has no rate. */
  function DiscountRate(code: Option<string>): (r: Option<real>)
    ensures r.Some? <==> code == Some("WELCOME10") || code == Some("SALE20")
    ensures r.Some? ==> 0.0 < r.value < 1.0
    ensures code == Some("WELCOME10") ==> r == Some(0.1)
    ensures code == Some("SALE20") ==> r == Some(0.2)
  {
    if code == Some("WELCOME10") then Some(0.1)
    else if code == Some("SALE20") then Some(0.2)
    else None
  }

  /** POST /:cartId/discount: the discount is a share of the stored subtotal. */
  method ApplyDiscount(cart: Cart?, code: Option<string>) returns (s: Status)
    modifies cart
    ensures cart == null <==> s == CartNotFound
    ensures cart != null && DiscountRate(code).None? ==> s == InvalidDiscountCode && unchanged(cart)
    ensures cart != null && DiscountRate(code).Some? ==>
      s == Done &&
      cart.Record() == old(cart.Record()).(discountCode := code,
                                           discountAmount := old(cart.subtotal) * DiscountRate(code).value)
  {
    if cart == null {
      return CartNotFound;
    }
    var rate := DiscountRate(code);
    if rate.None? {
      return InvalidDiscountCode;
    }
    cart.discountCode := code;
    cart.discountAmount := cart.subtotal * rate.value;
    s := Done;
  }

  /** An accepted code never discounts more than a non-negative subtotal. */
  lemma DiscountWithinSubtotal(subtotal: real, code: Option<string>)
    requires subtotal >= 0.0 && DiscountRate(code).Some?
    ensures 0.0 <= subtotal * DiscountRate(code).value <= subtotal
  {
  }
}
