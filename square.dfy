/** The point-of-sale integration (src/routes/square.js): searching and sorting
    the customer list the payment processor returns, and mapping its catalogue
    variations to product payloads. The processor's answers are inputs; the
    product upsert is not modelled. */
module SquareRoutes {
  import opened Common
  import opened Models

  /** A customer as the processor lists it; `createdAt` is in milliseconds. */
  datatype SquareCustomer = SquareCustomer(
    givenName: Option<string>,
    familyName: Option<string>,
    emailAddress: Option<string>,
    createdAt: int)

  /** `field?.toLowerCase().includes(t)`: an absent field never matches. */
  predicate FieldMatches(field: Option<string>, t: string) {
    field.Some? && Includes(Lower(field.value), t)
  }

  predicate MatchesSearch(c: SquareCustomer, search: string) {
    var t := Lower(search);
    FieldMatches(c.givenName, t) || FieldMatches(c.familyName, t) || FieldMatches(c.emailAddress, t)
  }

  /** The search filter of GET /customers (the search defaults to ""). */
  function SearchCustomers(customers: seq<SquareCustomer>, search: string): (r: seq<SquareCustomer>)
    ensures forall c :: c in r <==> c in customers && MatchesSearch(c, search)
    ensures |r| <= |customers|
  {
    Filter(customers, (c: SquareCustomer) => MatchesSearch(c, search))
  }

  /** With the empty search, every customer with at least one of the three fields
      is kept, and a customer with none of them is dropped. */
  lemma EmptySearchKeeps(c: SquareCustomer)
    ensures MatchesSearch(c, "") <==> c.givenName.Some? || c.familyName.Some? || c.emailAddress.Some?
  {
    assert Lower("") == "";
    forall f: Option<string> | f.Some?
      ensures FieldMatches(f, "")
    {
      assert OccursAt("", Lower(f.value), 0);
    }
  }

  datatype SortOrder = AtoZ | ZtoA | Newest | Oldest

  /** `sorters[sort] || sorters["A-Z"]`: an unknown key sorts A to Z. */
  function SorterFor(sort: string): (o: SortOrder)
    ensures sort == "Z-A" <==> o == ZtoA
    ensures sort == "NEWEST" <==> o == Newest
    ensures sort == "OLDEST" <==> o == Oldest
    ensures o == AtoZ <==> sort !in {"Z-A", "NEWEST", "OLDEST"}
  {
    if sort == "Z-A" then ZtoA
    else if sort == "NEWEST" then Newest
    else if sort == "OLDEST" then Oldest
    else AtoZ
  }

  /** The stand-in for localeCompare: lexicographic order of character codes. */
  predicate LexLe(s: string, t: string) {
    s == [] || (t != [] && (s[0] < t[0] || (s[0] == t[0] && LexLe(s[1..], t[1..]))))
  }

  lemma {:induction false} LexLeTotal(s: string, t: string)
    ensures LexLe(s, t) || LexLe(t, s)
    decreases |s|
  {
    if s != [] && t != [] && s[0] == t[0] {
      LexLeTotal(s[1..], t[1..]);
    }
  }

  lemma {:induction false} LexLeTrans(s: string, t: string, u: string)
    requires LexLe(s, t) && LexLe(t, u)
    ensures LexLe(s, u)
    decreases |s|
  {
    if s != [] && s[0] == t[0] && t[0] == u[0] {
      LexLeTrans(s[1..], t[1..], u[1..]);
    }
  }

  /** The name a sort compares: an absent given name reaches localeCompare as an
      argument, where it reads as the string "undefined". */
  function NameKey(c: SquareCustomer): string {
    if c.givenName.Some? then c.givenName.value else "undefined"
  }

  /** `a` may precede `b`: the comparator does not return a positive number. */
  predicate Precedes(o: SortOrder, a: SquareCustomer, b: SquareCustomer) {
    match o
    case AtoZ => LexLe(NameKey(a), NameKey(b))
    case ZtoA => LexLe(NameKey(b), NameKey(a))
    case Newest => b.createdAt <= a.createdAt
    case Oldest => a.createdAt <= b.createdAt
  }

  lemma PrecedesTotal(o: SortOrder, a: SquareCustomer, b: SquareCustomer)
    ensures Precedes(o, a, b) || Precedes(o, b, a)
  {
    LexLeTotal(NameKey(a), NameKey(b));
  }

  lemma PrecedesTrans(o: SortOrder, a: SquareCustomer, b: SquareCustomer, c: SquareCustomer)
    requires Precedes(o, a, b) && Precedes(o, b, c)
    ensures Precedes(o, a, c)
  {
    match o
    case AtoZ => LexLeTrans(NameKey(a), NameKey(b), NameKey(c));
    case ZtoA => LexLeTrans(NameKey(c), NameKey(b), NameKey(a));
    case Newest =>
    case Oldest =>
  }

  predicate SortedBy(o: SortOrder, s: seq<SquareCustomer>) {
    forall p, q :: 0 <= p < q < |s| ==> Precedes(o, s[p], s[q])
  }

  /** `filtered.sort(...)`: sorts the array in place, by insertion. */
  method SortCustomers(a: array<SquareCustomer>, o: SortOrder)
    modifies a
    ensures SortedBy(o, a[..])
    ensures multiset(a[..]) == multiset(old(a[..]))
  {
    if a.Length == 0 {
      return;
    }
    var i := 1;
    while i < a.Length
      invariant 1 <= i <= a.Length
      invariant SortedBy(o, a[..i])
      invariant multiset(a[..]) == multiset(old(a[..]))
    {
      InsertAt(a, o, i);
      i := i + 1;
    }
    assert a[..i] == a[..];
  }

  /** One insertion step: `a[i]` moves left past every element it must follow. */
  method InsertAt(a: array<SquareCustomer>, o: SortOrder, i: nat)
    requires 0 < i < a.Length && SortedBy(o, a[..i])
    modifies a
    ensures SortedBy(o, a[..i + 1])
    ensures multiset(a[..]) == multiset(old(a[..]))
  {
    var j := i;
    InsertStart(o, a[..], i);
    while j > 0 && !Precedes(o, a[j - 1], a[j])
      invariant 0 <= j <= i
      invariant SortedExcept(o, a[..], i, j) && PrecedesRest(o, a[..], i, j)
      invariant multiset(a[..]) == multiset(old(a[..]))
    {
      ghost var s := a[..];
      SwapStep(o, s, i, j);
      a[j - 1], a[j] := a[j], a[j - 1];
      assert a[..] == s[j - 1 := s[j]][j := s[j - 1]];
      j := j - 1;
    }
    InsertDone(o, a[..], i, j);
  }

  /** Apart from position `j`, the first `i + 1` elements are in order. */
  predicate SortedExcept(o: SortOrder, s: seq<SquareCustomer>, i: nat, j: nat)
    requires i < |s|
  {
    forall p, q :: 0 <= p < q <= i && p != j && q != j ==> Precedes(o, s[p], s[q])
  }

  /** The element at `j` may precede every element after it up to `i`. */
  predicate PrecedesRest(o: SortOrder, s: seq<SquareCustomer>, i: nat, j: nat)
    requires j <= i < |s|
  {
    forall q :: j < q <= i ==> Precedes(o, s[j], s[q])
  }

  lemma InsertStart(o: SortOrder, s: seq<SquareCustomer>, i: nat)
    requires i < |s| && SortedBy(o, s[..i])
    ensures SortedExcept(o, s, i, i) && PrecedesRest(o, s, i, i)
  {
    assert forall p :: 0 <= p < i ==> s[..i][p] == s[p];
  }

  lemma SwapStep(o: SortOrder, s: seq<SquareCustomer>, i: nat, j: nat)
    requires 0 < j <= i < |s|
    requires SortedExcept(o, s, i, j) && PrecedesRest(o, s, i, j) && !Precedes(o, s[j - 1], s[j])
    ensures var t := s[j - 1 := s[j]][j := s[j - 1]];
            SortedExcept(o, t, i, j - 1) && PrecedesRest(o, t, i, j - 1)
    ensures multiset(s[j - 1 := s[j]][j := s[j - 1]]) == multiset(s)
  {
    PrecedesTotal(o, s[j - 1], s[j]);
  }

  lemma InsertDone(o: SortOrder, s: seq<SquareCustomer>, i: nat, j: nat)
    requires j <= i < |s|
    requires SortedExcept(o, s, i, j) && PrecedesRest(o, s, i, j)
    requires j == 0 || Precedes(o, s[j - 1], s[j])
    ensures SortedBy(o, s[..i + 1])
  {
    forall p, q | 0 <= p < q <= i
      ensures Precedes(o, s[p], s[q])
    {
      if q == j && p < j - 1 {
        PrecedesTrans(o, s[p], s[j - 1], s[j]);
      }
    }
  }

  /** The variation fields the sync reads; an absent amount is `null`. */
  datatype VariationData = VariationData(
    sku: Option<string>,
    name: Option<string>,
    amount: Option<int>,
    trackInventory: bool,
    imageIds: seq<string>)

  datatype ItemData = ItemData(name: Option<string>, description: Option<string>, variations: seq<Option<VariationData>>)

  datatype CatalogObject = CatalogObject(kind: string, item: Option<ItemData>)

  /** The product fields the sync writes for one variation. */
  datatype ProductPayload = ProductPayload(
    sku: string,
    name: Option<string>,
    description: string,
    price: real,
    category: string,
    imageIds: seq<string>,
    imageAlt: Option<string>,
    sizes: seq<SizeEntry>,
    colors: seq<string>)

  /** Only ITEM objects with at least one variation are synced. */
  predicate Syncable(obj: CatalogObject) {
    obj.kind == "ITEM" && obj.item.Some? && |obj.item.value.variations| > 0
  }

  /** A name as a template literal prints it. */
  function Printed(name: Option<string>): string {
    if name.Some? then name.value else "undefined"
  }

  /** The price in currency units: the amount in cents over 100, or 0 with no amount. */
  function PriceOf(v: VariationData): (p: real)
    ensures v.amount.Some? ==> p == v.amount.value as real / 100.0
    ensures v.amount.None? ==> p == 0.0
    ensures p == 0.0 <==> v.amount.None? || v.amount.value == 0
  {
    if v.amount.Some? then v.amount.value as real / 100.0 else 0.0
  }

  /** The payload for one variation, or None when it is skipped: no sku, or a price
      that is absent or zero. */
  function PayloadOf(item: ItemData, variation: Option<VariationData>): (r: Option<ProductPayload>)
    ensures r.Some? <==> variation.Some? && Given(variation.value.sku) && PriceOf(variation.value) != 0.0
    ensures r.Some? ==> var v := variation.value;
      r.value.sku == v.sku.value && r.value.price == PriceOf(v) && r.value.name == item.name &&
      r.value.category == "dresses" && r.value.colors == [] &&
      r.value.description == (if Given(item.description) then item.description.value
                              else "Imported from Square – " + Printed(item.name)) &&
      r.value.sizes == [SizeEntry(if Given(v.name) then v.name.value else "Default",
                                  Some(if v.trackInventory then 0 else 999), None)]
  {
    if variation.None? || !Given(variation.value.sku) then None
    else
      var v := variation.value;
      var price := PriceOf(v);
      if price == 0.0 then None
      else
        Some(ProductPayload(
          v.sku.value, item.name,
          if Given(item.description) then item.description.value else "Imported from Square – " + Printed(item.name),
          price, "dresses", v.imageIds, item.name,
          [SizeEntry(if Given(v.name) then v.name.value else "Default", Some(if v.trackInventory then 0 else 999), None)],
          []))
  }

  /** The payloads of one item's variations, in order. */
  function ItemPayloads(item: ItemData, variations: seq<Option<VariationData>>): seq<ProductPayload> {
    if variations == [] then []
    else
      var p := PayloadOf(item, variations[|variations| - 1]);
      ItemPayloads(item, variations[..|variations| - 1]) + (if p.Some? then [p.value] else [])
  }

  /** The payloads of a list of synced items, item by item. */
  function SyncAll(items: seq<CatalogObject>): seq<ProductPayload>
    requires forall i :: 0 <= i < |items| ==> items[i].item.Some?
  {
    if items == [] then []
    else
      var last := items[|items| - 1];
      SyncAll(items[..|items| - 1]) + ItemPayloads(last.item.value, last.item.value.variations)
  }

  /** One more item extends the synced payloads by that item's payloads. */
  lemma SyncAllStep(items: seq<CatalogObject>, i: nat)
    requires forall k :: 0 <= k < |items| ==> items[k].item.Some?
    requires i < |items|
    ensures SyncAll(items[..i + 1]) == SyncAll(items[..i]) + ItemPayloads(items[i].item.value, items[i].item.value.variations)
  {
    assert items[..i + 1][..i] == items[..i];
  }

  /** The inner loop of POST /sync-products over one item's variations, skipping
      with `continue`. */
  method SyncItem(item: ItemData) returns (payloads: seq<ProductPayload>)
    ensures payloads == ItemPayloads(item, item.variations)
  {
    payloads := [];
    var j := 0;
    while j < |item.variations|
      invariant 0 <= j <= |item.variations|
      invariant payloads == ItemPayloads(item, item.variations[..j])
    {
      assert item.variations[..j + 1][..j] == item.variations[..j];
      var variation := item.variations[j];
      j := j + 1;
      if variation.None? || !Given(variation.value.sku) {
        continue;
      }
      var price := PriceOf(variation.value);
      if price == 0.0 {
        continue;
      }
      payloads := payloads + [PayloadOf(item, variation).value];
    }
    assert item.variations[..j] == item.variations;
  }

  /** POST /sync-products: filter the catalogue, then sync each item's variations. */
  method SyncProducts(catalog: seq<CatalogObject>) returns (payloads: seq<ProductPayload>)
    ensures payloads == SyncAll(Filter(catalog, Syncable))
  {
    var items := Filter(catalog, Syncable);
    assert forall k :: 0 <= k < |items| ==> items[k].item.Some?;
    payloads := [];
    var i := 0;
    while i < |items|
      invariant 0 <= i <= |items|
      invariant payloads == SyncAll(items[..i])
    {
      var item := items[i].item.value;
      var synced := SyncItem(item);
      SyncAllStep(items, i);
      payloads := payloads + synced;
      i := i + 1;
    }
    assert items[..i] == items;
  }

  /** Every payload has a sku, a non-zero price, and one
      size whose stock is 0 or 999. */
  predicate WellFormed(p: ProductPayload) {
    p.sku != "" && p.price != 0.0 && |p.sizes| == 1 &&
    (p.sizes[0].stock == Some(0) || p.sizes[0].stock == Some(999))
  }

  lemma {:induction false} ItemPayloadsWellFormed(item: ItemData, variations: seq<Option<VariationData>>)
    ensures forall k :: 0 <= k < |ItemPayloads(item, variations)| ==> WellFormed(ItemPayloads(item, variations)[k])
    ensures |ItemPayloads(item, variations)| <= |variations|
    decreases |variations|
  {
    if variations != [] {
      ItemPayloadsWellFormed(item, variations[..|variations| - 1]);
    }
  }

  lemma {:induction false} SyncAllWellFormed(items: seq<CatalogObject>)
    requires forall i :: 0 <= i < |items| ==> items[i].item.Some?
    ensures forall k :: 0 <= k < |SyncAll(items)| ==> WellFormed(SyncAll(items)[k])
    decreases |items|
  {
    if items != [] {
      var last := items[|items| - 1];
      SyncAllWellFormed(items[..|items| - 1]);
      ItemPayloadsWellFormed(last.item.value, last.item.value.variations);
    }
  }
}
