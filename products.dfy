/** The product catalogue (src/routes/products.js): the listing query, the
    inventory records generated for a new product, and adding and removing
    product images. */
module Products {
  import opened Common
  import opened Models

  /** At most this many products are listed. */
  const ListLimit: nat := 100
  /** The restock threshold every generated inventory record starts with. */
  const DefaultRestockThreshold: int := 10

  datatype SortKey = PriceAscending | PriceDescending | NewestFirst | Unsorted

  /** The sort object: "price-low", "price-high" and "newest" each name one order;
      anything else, or nothing, leaves the store's order. */
  function SortFor(sort: Option<string>): (k: SortKey)
    ensures k == PriceAscending <==> sort == Some("price-low")
    ensures k == PriceDescending <==> sort == Some("price-high")
    ensures k == NewestFirst <==> sort == Some("newest")
  {
    if sort == Some("price-low") then PriceAscending
    else if sort == Some("price-high") then PriceDescending
    else if sort == Some("newest") then NewestFirst
    else Unsorted
  }

  /** The listing query: a category filter only for a given category, a text filter
      only for a given search, the sort key and the cap. */
  datatype ListQuery = ListQuery(category: Option<string>, search: Option<string>, sort: SortKey, limit: nat)

  function ListingQuery(category: Option<string>, search: Option<string>, sort: Option<string>): (q: ListQuery)
    ensures q.category.Some? <==> Given(category)
    ensures q.category.Some? ==> q.category == category
    ensures q.search.Some? <==> Given(search)
    ensures q.search.Some? ==> q.search == search
    ensures q.sort == SortFor(sort) && q.limit == ListLimit
  {
    ListQuery(if Given(category) then category else None,
              if Given(search) then search else None,
              SortFor(sort), ListLimit)
  }

  /** A product the query selects: the category must be equal, and the search text
      must occur in the name or the description, ignoring case. */
  predicate Selects(q: ListQuery, p: Product) {
    (q.category.None? || p.category == q.category.value) &&
    (q.search.None? ||
     Includes(Lower(p.name), Lower(q.search.value)) || Includes(Lower(p.description), Lower(q.search.value)))
  }

  /** A request with neither a category nor a search selects every product, and one
      with a category never selects a product of another category. */
  lemma ListingQuerySelects(category: Option<string>, search: Option<string>, sort: Option<string>, p: Product)
    ensures !Given(category) && !Given(search) ==> Selects(ListingQuery(category, search, sort), p)
    ensures Given(category) && p.category != category.value ==> !Selects(ListingQuery(category, search, sort), p)
  {
  }

  /** The record created for one colour and one size entry of a new product. */
  function InventoryRecordFor(productId: string, color: string, e: SizeEntry): (r: InventoryRecord)
    ensures r.productId == productId && r.color == color && r.size == e.size && r.sku == e.sku
    ensures r.quantity == (if e.stock.Some? then e.stock.value else 0)
    ensures r.reserved == 0 && r.restockThreshold == DefaultRestockThreshold
  {
    InventoryRecord(productId, e.size, e.sku, color, if e.stock.Some? then e.stock.value else 0, 0,
                    DefaultRestockThreshold)
  }

  /** The records for one colour, one per size entry in order. */
  function RecordsForColor(productId: string, color: string, sizes: seq<SizeEntry>): seq<InventoryRecord> {
    seq(|sizes|, j requires 0 <= j < |sizes| => InventoryRecordFor(productId, color, sizes[j]))
  }

  /** The records for every colour in order, each colour's records together. */
  function InventoryFor(productId: string, colors: seq<string>, sizes: seq<SizeEntry>): seq<InventoryRecord> {
    if colors == [] then []
    else InventoryFor(productId, colors[..|colors| - 1], sizes) + RecordsForColor(productId, colors[|colors| - 1], sizes)
  }

  /** There is exactly one record per colour and size, colours outer and sizes inner. */
  lemma {:induction false} InventoryForIndex(productId: string, colors: seq<string>, sizes: seq<SizeEntry>)
    ensures |InventoryFor(productId, colors, sizes)| == |colors| * |sizes|
    ensures forall c, s :: 0 <= c < |colors| && 0 <= s < |sizes| ==>
              InventoryFor(productId, colors, sizes)[c * |sizes| + s] == InventoryRecordFor(productId, colors[c], sizes[s])
    decreases |colors|
  {
    if colors != [] {
      var n, m := |colors|, |sizes|;
      var front := colors[..n - 1];
      InventoryForIndex(productId, front, sizes);
      var head := InventoryFor(productId, front, sizes);
      var tail := RecordsForColor(productId, colors[n - 1], sizes);
      var r := InventoryFor(productId, colors, sizes);
      assert r == head + tail;
      MulSucc(n - 1, m);
      forall c, s | 0 <= c < n && 0 <= s < m
        ensures r[c * m + s] == InventoryRecordFor(productId, colors[c], sizes[s])
      {
        var idx := c * m + s;
        if c < n - 1 {
          RowIndex(c, s, n - 1, m);
          assert idx < |head|;
          assert colors[c] == front[c];
          assert r[idx] == head[idx];
        } else {
          assert c * m == |head|;
          assert r[idx] == tail[s];
        }
      }
    }
  }

  lemma MulSucc(a: nat, m: nat)
    ensures (a + 1) * m == a * m + m
  {
  }

  /** Row `c` of width `m` ends no later than row `k` starts, for `c < k`. */
  lemma {:induction false} RowIndex(c: nat, s: nat, k: nat, m: nat)
    requires s < m && c < k
    ensures c * m + s < k * m
    decreases k - c
  {
    MulSucc(c, m);
    if c + 1 < k {
      RowIndex(c + 1, 0, k, m);
    }
  }

  /** The nested loop of POST /: for each colour, for each size entry, one record. */
  method GenerateInventory(productId: string, colors: seq<string>, sizes: seq<SizeEntry>)
    returns (records: seq<InventoryRecord>)
    ensures records == InventoryFor(productId, colors, sizes)
  {
    records := [];
    var i := 0;
    while i < |colors|
      invariant 0 <= i <= |colors|
      invariant records == InventoryFor(productId, colors[..i], sizes)
    {
      var color := colors[i];
      var j := 0;
      while j < |sizes|
        invariant 0 <= j <= |sizes|
        invariant records == InventoryFor(productId, colors[..i], sizes) + RecordsForColor(productId, color, sizes[..j])
      {
        assert RecordsForColor(productId, color, sizes[..j + 1]) ==
               RecordsForColor(productId, color, sizes[..j]) + [InventoryRecordFor(productId, color, sizes[j])];
        records := records + [InventoryRecordFor(productId, color, sizes[j])];
        j := j + 1;
      }
      assert sizes[..j] == sizes;
      assert colors[..i + 1][..i] == colors[..i];
      i := i + 1;
    }
    assert colors[..i] == colors;
  }

  datatype ImageStatus = Done | MissingUrl | ProductNotFound | ImageNotFound

  /** The images left after removing every image with the given id. */
  function DropImage(images: seq<Image>, imageId: string): (r: seq<Image>)
    ensures forall img :: img in r <==> img in images && img.id != imageId
    ensures |r| <= |images|
  {
    Filter(images, (img: Image) => img.id != imageId)
  }

  /** The kept images stay in their order: removal distributes over concatenation,
      and a single image is kept exactly when its id differs. */
  lemma DropImageKeepsOrder(a: seq<Image>, b: seq<Image>, img: Image, imageId: string)
    ensures DropImage(a + b, imageId) == DropImage(a, imageId) + DropImage(b, imageId)
    ensures DropImage([img], imageId) == if img.id != imageId then [img] else []
  {
    FilterAppend(a, b, (img: Image) => img.id != imageId);
    assert [img][1..] == [];
  }

  predicate HasImage(images: seq<Image>, imageId: string) {
    exists i :: 0 <= i < |images| && images[i].id == imageId
  }

  /** Removing an id that is absent keeps the list as it was; removing one that is
      present shortens it. */
  lemma DropImageChanges(images: seq<Image>, imageId: string)
    ensures DropImage(images, imageId) == images <==> !HasImage(images, imageId)
    ensures HasImage(images, imageId) ==> |DropImage(images, imageId)| < |images|
  {
    var keep := (img: Image) => img.id != imageId;
    FilterAll(images, keep);
    if HasImage(images, imageId) {
      var i :| 0 <= i < |images| && images[i].id == imageId;
      FilterShrinks(images, keep, i);
    }
  }

  /** The stored products, by id. */
  class Catalog {
    var products: map<string, Product>

    constructor (products: map<string, Product>)
      ensures this.products == products
    {
      this.products := products;
    }

    /** PUT /:id/images. A missing or empty url is refused before the product is
        looked up; otherwise one image is appended, with the id the store gives it. */
    method AddImage(id: string, url: Option<string>, alt: Option<string>, newId: string) returns (s: ImageStatus)
      modifies this
      ensures !Given(url) ==> s == MissingUrl
      ensures Given(url) && id !in old(products) ==> s == ProductNotFound
      ensures s != Done ==> products == old(products)
      ensures s == Done <==> Given(url) && id in old(products)
      ensures s == Done ==>
                products == old(products)[id := old(products)[id].(images := old(products)[id].images + [Image(newId, url.value, alt)])]
    {
      if !Given(url) {
        return MissingUrl;
      }
      if id !in products {
        return ProductNotFound;
      }
      var p := products[id];
      products := products[id := p.(images := p.images + [Image(newId, url.value, alt)])];
      s := Done;
    }

    /** DELETE /:id/images/:imageId. An unknown product or an image id it does not
        carry is not found and changes nothing; otherwise every image with that id
        goes and the others stay in order. */
    method RemoveImage(id: string, imageId: string) returns (s: ImageStatus)
      modifies this
      ensures id !in old(products) ==> s == ProductNotFound
      ensures id in old(products) && !HasImage(old(products)[id].images, imageId) ==> s == ImageNotFound
      ensures s == Done <==> id in old(products) && HasImage(old(products)[id].images, imageId)
      ensures s != Done ==> products == old(products)
      ensures s == Done ==>
                products == old(products)[id := old(products)[id].(images := DropImage(old(products)[id].images, imageId))]
    {
      if id !in products {
        return ProductNotFound;
      }
      var p := products[id];
      if !HasImage(p.images, imageId) {
        return ImageNotFound;
      }
      products := products[id := p.(images := DropImage(p.images, imageId))];
      s := Done;
    }
  }
}
