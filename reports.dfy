/** The admin reports (src/routes/reports.js): the reporting window and the one
    before it, the headline metrics, revenue per day and per category, and the
    stock report. Dates are milliseconds since the epoch; "now" and the instant
    one calendar year earlier are inputs. */
module Reports {
  import opened Common
  import opened Models

  const DayMs: int := 86400000
  /** A product is low on stock below this many units. */
  const LowStockBelow: int := 10

  /** An inclusive window of creation times, as the `$gte`/`$lte` query uses it. */
  datatype Window = Window(start: int, end: int)

  predicate InWindow(t: int, w: Window) {
    w.start <= t <= w.end
  }

  /** How many days back each named period reaches; anything unknown is 30. */
  function PeriodDays(period: Option<string>): (d: nat)
    ensures period == Some("last-7") ==> d == 7
    ensures period == Some("last-90") ==> d == 90
    ensures period != Some("last-7") && period != Some("last-90") ==> d == 30
  {
    if period == Some("last-7") then 7
    else if period == Some("last-30") then 30
    else if period == Some("last-90") then 90
    else 30
  }

  /** getPeriodRange: a window ending now; "year" starts one calendar year earlier,
      every other period the given number of days earlier. */
  function PeriodRange(period: Option<string>, now: int, yearAgo: int): (w: Window)
    ensures w.end == now
    ensures period == Some("year") ==> w.start == yearAgo
    ensures period != Some("year") ==> w.end - w.start == PeriodDays(period) * DayMs && w.start < w.end
  {
    if period == Some("year") then Window(yearAgo, now)
    else Window(now - PeriodDays(period) * DayMs, now)
  }

  /** The current window: both explicit dates together replace the period's window;
      one date alone is ignored. */
  function CurrentRange(period: Option<string>, startDate: Option<int>, endDate: Option<int>,
                        now: int, yearAgo: int): (w: Window)
    ensures startDate.Some? && endDate.Some? ==> w == Window(startDate.value, endDate.value)
    ensures startDate.None? || endDate.None? ==> w == PeriodRange(period, now, yearAgo)
  {
    if startDate.Some? && endDate.Some? then Window(startDate.value, endDate.value)
    else PeriodRange(period, now, yearAgo)
  }

  /** The previous window: as long as the current one, ending where it starts. */
  function PreviousRange(w: Window): (p: Window)
    ensures p.end == w.start
    ensures p.end - p.start == w.end - w.start
  {
    Window(w.start - (w.end - w.start), w.start)
  }

  /** Both windows include their shared boundary, so an order placed exactly at the
      start of the current window counts in both periods. */
  lemma BoundaryInBothWindows(w: Window)
    requires w.start <= w.end
    ensures InWindow(w.start, w) && InWindow(w.start, PreviousRange(w))
  {
  }

  /** The orders of a list created inside a window. */
  function OrdersIn(orders: seq<Order>, w: Window): (r: seq<Order>)
    ensures forall o :: o in r <==> o in orders && InWindow(o.createdAt, w)
  {
    Filter(orders, (o: Order) => InWindow(o.createdAt, w))
  }

  datatype Metrics = Metrics(totalRevenue: real, totalOrders: nat, averageOrderValue: int, refundRate: real)

  function Refunded(orders: seq<Order>): (r: seq<Order>)
    ensures |r| <= |orders|
    ensures forall o :: o in r <==> o in orders && o.status == "refunded"
  {
    Filter(orders, (o: Order) => o.status == "refunded")
  }

  /** `part / whole * 100` for a part of a non-empty whole: a percentage. */
  function Percent(part: nat, whole: nat): (r: real)
    requires part <= whole && whole > 0
    ensures r == part as real / whole as real * 100.0
    ensures 0.0 <= r <= 100.0
  {
    var f := part as real / whole as real;
    assert 0.0 <= f <= 1.0 by {
      assert f * whole as real == part as real;
    }
    f * 100.0
  }

  /** calcMetrics: revenue and count; the rounded average and the percentage of
      refunded orders are 0 for an empty list. */
  function CalcMetrics(orders: seq<Order>): (m: Metrics)
    ensures m.totalRevenue == Revenue(orders) && m.totalOrders == |orders|
    ensures orders == [] ==> m.averageOrderValue == 0 && m.refundRate == 0.0
    ensures orders != [] ==> m.averageOrderValue == Round(Revenue(orders) / |orders| as real)
    ensures 0.0 <= m.refundRate <= 100.0
    ensures orders != [] ==> m.refundRate == |Refunded(orders)| as real / |orders| as real * 100.0
  {
    var n := |orders|;
    var revenue := Revenue(orders);
    var refunded := |Refunded(orders)|;
    Metrics(revenue, n,
            if n > 0 then Round(revenue / n as real) else 0,
            if n > 0 then Percent(refunded, n) else 0.0)
  }

  /** "refunded" is not a status the Order schema admits, so over orders saved
      through the schema's validators the refund rate is always 0. (The admin status
      update runs no validators and can store "refunded".) */
  lemma RefundRateOfStoredOrders(orders: seq<Order>)
    requires forall i :: 0 <= i < |orders| ==> OrderSchemaAccepts(orders[i])
    ensures CalcMetrics(orders).refundRate == 0.0
  {
    assert forall i :: 0 <= i < |orders| ==> orders[i].status != "refunded";
    FilterNone(orders, (o: Order) => o.status == "refunded");
  }

  /** A tally is a JavaScript object used as a dictionary: keys in insertion order,
      each with its running sum. */
  function Keys<K>(t: seq<(K, real)>): (ks: seq<K>)
    ensures |ks| == |t| && forall i :: 0 <= i < |t| ==> ks[i] == t[i].0
  {
    if t == [] then [] else [t[0].0] + Keys(t[1..])
  }

  predicate DistinctKeys<K(==)>(t: seq<(K, real)>) {
    forall i, j :: 0 <= i < j < |t| ==> t[i].0 != t[j].0
  }

  /** `tally[k] || 0`. */
  function TallyGet<K(==)>(t: seq<(K, real)>, k: K): real {
    if t == [] then 0.0 else if t[0].0 == k then t[0].1 else TallyGet(t[1..], k)
  }

  function TallySum<K>(t: seq<(K, real)>): real {
    if t == [] then 0.0 else t[0].1 + TallySum(t[1..])
  }

  /** `tally[k] = (tally[k] || 0) + v`: an existing key keeps its place, a new one
      goes last. */
  function TallyAdd<K(==)>(t: seq<(K, real)>, k: K, v: real): (r: seq<(K, real)>)
    ensures Keys(r) == if k in Keys(t) then Keys(t) else Keys(t) + [k]
  {
    if t == [] then [(k, v)]
    else if t[0].0 == k then [(k, t[0].1 + v)] + t[1..]
    else
      var rest := TallyAdd(t[1..], k, v);
      assert Keys(t) == [t[0].0] + Keys(t[1..]);
      [t[0]] + rest
  }

  lemma {:induction false} TallyAddSum<K>(t: seq<(K, real)>, k: K, v: real)
    ensures TallySum(TallyAdd(t, k, v)) == TallySum(t) + v
    decreases |t|
  {
    if t != [] && t[0].0 != k {
      TallyAddSum(t[1..], k, v);
      assert TallyAdd(t, k, v)[1..] == TallyAdd(t[1..], k, v);
    } else if t != [] {
      assert TallyAdd(t, k, v)[1..] == t[1..];
    }
  }

  lemma {:induction false} TallyAddGet<K>(t: seq<(K, real)>, k: K, v: real, j: K)
    requires DistinctKeys(t)
    ensures TallyGet(TallyAdd(t, k, v), j) == TallyGet(t, j) + (if j == k then v else 0.0)
    decreases |t|
  {
    if t == [] {
    } else if t[0].0 == k {
      if j != k {
        assert TallyAdd(t, k, v)[1..] == t[1..];
      } else {
        TallyGetAbsent(t[1..], k);
      }
    } else {
      assert TallyAdd(t, k, v)[1..] == TallyAdd(t[1..], k, v);
      TallyAddGet(t[1..], k, v, j);
    }
  }

  lemma {:induction false} TallyGetAbsent<K>(t: seq<(K, real)>, k: K)
    requires k !in Keys(t)
    ensures TallyGet(t, k) == 0.0
    decreases |t|
  {
    if t != [] {
      assert Keys(t)[0] == t[0].0;
      assert Keys(t[1..]) == Keys(t)[1..];
      TallyGetAbsent(t[1..], k);
    }
  }

  lemma TallyAddDistinct<K>(t: seq<(K, real)>, k: K, v: real)
    requires DistinctKeys(t)
    ensures DistinctKeys(TallyAdd(t, k, v))
  {
    var r := TallyAdd(t, k, v);
    forall i, j | 0 <= i < j < |r|
      ensures r[i].0 != r[j].0
    {
      assert Keys(r)[i] == r[i].0 && Keys(r)[j] == r[j].0;
      if j < |t| {
        assert Keys(t)[i] == t[i].0 && Keys(t)[j] == t[j].0;
      } else {
        assert Keys(t)[i] == t[i].0;
      }
    }
  }

  /** The calendar day (UTC) of an order's creation time, as its ISO date string names it. */
  function DayOf(o: Order): int {
    o.createdAt / DayMs
  }

  /** The per-day tally the loop builds, folded over the orders in their order. */
  function DayTally(orders: seq<Order>): seq<(int, real)> {
    if orders == [] then []
    else
      var last := orders[|orders| - 1];
      TallyAdd(DayTally(orders[..|orders| - 1]), DayOf(last), last.total)
  }

  /** The salesByDay loop. */
  method SalesByDay(orders: seq<Order>) returns (t: seq<(int, real)>)
    ensures t == DayTally(orders)
  {
    t := [];
    var i := 0;
    while i < |orders|
      invariant 0 <= i <= |orders|
      invariant t == DayTally(orders[..i])
    {
      assert orders[..i + 1][..i] == orders[..i];
      t := TallyAdd(t, DayOf(orders[i]), orders[i].total);
      i := i + 1;
    }
    assert orders[..i] == orders;
  }

  lemma RevenueAppend(orders: seq<Order>, o: Order)
    ensures Revenue(orders + [o]) == Revenue(orders) + o.total
  {
    assert (orders + [o])[..|orders|] == orders;
  }

  lemma {:induction false} RevenueConcat(a: seq<Order>, b: seq<Order>)
    ensures Revenue(a + b) == Revenue(a) + Revenue(b)
    decreases |b|
  {
    if b == [] {
      assert a + b == a;
    } else {
      var n := |b|;
      assert a + b == (a + b[..n - 1]) + [b[n - 1]];
      assert b == b[..n - 1] + [b[n - 1]];
      RevenueConcat(a, b[..n - 1]);
      RevenueAppend(a + b[..n - 1], b[n - 1]);
      RevenueAppend(b[..n - 1], b[n - 1]);
    }
  }

  /** Every day appears once, and the days together account for all the revenue. */
  lemma {:induction false} DayTallyTotals(orders: seq<Order>)
    ensures DistinctKeys(DayTally(orders))
    ensures TallySum(DayTally(orders)) == Revenue(orders)
    decreases |orders|
  {
    if orders != [] {
      var front, last := orders[..|orders| - 1], orders[|orders| - 1];
      assert DayTally(orders) == TallyAdd(DayTally(front), DayOf(last), last.total);
      assert Revenue(orders) == Revenue(front) + last.total;
      DayTallyTotals(front);
      TallyAddSum(DayTally(front), DayOf(last), last.total);
      TallyAddDistinct(DayTally(front), DayOf(last), last.total);
    }
  }

  function OnDay(day: int): Order -> bool {
    (o: Order) => DayOf(o) == day
  }

  /** The last order adds its total to its own day's revenue and nothing to any other day's. */
  lemma RevenueOnDayStep(orders: seq<Order>, day: int)
    requires orders != []
    ensures var last := orders[|orders| - 1];
            Revenue(Filter(orders, OnDay(day))) ==
            Revenue(Filter(orders[..|orders| - 1], OnDay(day))) + (if DayOf(last) == day then last.total else 0.0)
  {
    var onDay := OnDay(day);
    var front, last := orders[..|orders| - 1], orders[|orders| - 1];
    assert orders == front + [last];
    FilterAppend(front, [last], onDay);
    assert [last][1..] == [];
    if DayOf(last) == day {
      assert Filter([last], onDay) == [last];
      RevenueAppend(Filter(front, onDay), last);
    } else {
      assert Filter([last], onDay) == [];
      assert Filter(front, onDay) + [] == Filter(front, onDay);
    }
  }

  /** A day's entry is the revenue of exactly the orders created that day. */
  lemma {:induction false} DayTallyGet(orders: seq<Order>, day: int)
    ensures TallyGet(DayTally(orders), day) == Revenue(Filter(orders, OnDay(day)))
    decreases |orders|
  {
    if orders != [] {
      var front, last := orders[..|orders| - 1], orders[|orders| - 1];
      assert DayTally(orders) == TallyAdd(DayTally(front), DayOf(last), last.total);
      DayTallyGet(front, day);
      DayTallyTotals(front);
      TallyAddGet(DayTally(front), DayOf(last), last.total, day);
      RevenueOnDayStep(orders, day);
    }
  }

  /** A product's category as the populated line reads it; a missing product or an
      empty category is "unknown". */
  function CategoryOf(categories: map<string, string>, productId: string): (c: string)
    ensures c != ""
    ensures productId in categories && categories[productId] != "" ==> c == categories[productId]
  {
    if productId in categories && categories[productId] != "" then categories[productId] else "unknown"
  }

  /** The inner loop: each line's revenue added under its product's category. */
  function ItemsInto(t: seq<(string, real)>, items: seq<LineItem>, categories: map<string, string>): seq<(string, real)> {
    if items == [] then t
    else
      var last := items[|items| - 1];
      TallyAdd(ItemsInto(t, items[..|items| - 1], categories), CategoryOf(categories, last.productId), LineTotal(last))
  }

  function CategoryTally(orders: seq<Order>, categories: map<string, string>): seq<(string, real)> {
    if orders == [] then []
    else ItemsInto(CategoryTally(orders[..|orders| - 1], categories), orders[|orders| - 1].items, categories)
  }

  /** The inner loop of salesByCategory, over one order's lines. */
  method AddItems(t0: seq<(string, real)>, items: seq<LineItem>, categories: map<string, string>)
    returns (t: seq<(string, real)>)
    ensures t == ItemsInto(t0, items, categories)
  {
    t := t0;
    var j := 0;
    while j < |items|
      invariant 0 <= j <= |items|
      invariant t == ItemsInto(t0, items[..j], categories)
    {
      assert items[..j + 1][..j] == items[..j];
      t := TallyAdd(t, CategoryOf(categories, items[j].productId), LineTotal(items[j]));
      j := j + 1;
    }
    assert items[..j] == items;
  }

  /** The salesByCategory loops. */
  method SalesByCategory(orders: seq<Order>, categories: map<string, string>) returns (t: seq<(string, real)>)
    ensures t == CategoryTally(orders, categories)
  {
    t := [];
    var i := 0;
    while i < |orders|
      invariant 0 <= i <= |orders|
      invariant t == CategoryTally(orders[..i], categories)
    {
      assert orders[..i + 1][..i] == orders[..i];
      t := AddItems(t, orders[i].items, categories);
      i := i + 1;
    }
    assert orders[..i] == orders;
  }

  /** Σ over the orders of each order's line revenue. */
  function LineRevenue(orders: seq<Order>): real {
    if orders == [] then 0.0 else LineRevenue(orders[..|orders| - 1]) + Subtotal(orders[|orders| - 1].items)
  }

  /** The inner loop keeps every category once. */
  lemma {:induction false} ItemsIntoDistinct(t: seq<(string, real)>, items: seq<LineItem>, categories: map<string, string>)
    requires DistinctKeys(t)
    ensures DistinctKeys(ItemsInto(t, items, categories))
    decreases |items|
  {
    if items != [] {
      var n := |items|;
      var last := items[n - 1];
      ItemsIntoDistinct(t, items[..n - 1], categories);
      TallyAddDistinct(ItemsInto(t, items[..n - 1], categories), CategoryOf(categories, last.productId), LineTotal(last));
    }
  }

  /** One more line adds exactly its amount to the tally's total. */
  lemma ItemsIntoSumStep(t: seq<(string, real)>, items: seq<LineItem>, categories: map<string, string>)
    requires items != []
    ensures TallySum(ItemsInto(t, items, categories)) ==
            TallySum(ItemsInto(t, items[..|items| - 1], categories)) + LineTotal(items[|items| - 1])
  {
    var last := items[|items| - 1];
    TallyAddSum(ItemsInto(t, items[..|items| - 1], categories), CategoryOf(categories, last.productId), LineTotal(last));
  }

  /** The inner loop adds exactly the order's line revenue to the tally's total. */
  lemma {:induction false} ItemsIntoSum(t: seq<(string, real)>, items: seq<LineItem>, categories: map<string, string>)
    ensures TallySum(ItemsInto(t, items, categories)) == TallySum(t) + Subtotal(items)
    decreases |items|
  {
    if items != [] {
      ItemsIntoSum(t, items[..|items| - 1], categories);
      ItemsIntoSumStep(t, items, categories);
    }
  }

  /** Every category appears once, and together the categories account for the
      revenue of every line of every order. */
  lemma {:induction false} CategoryTallyTotals(orders: seq<Order>, categories: map<string, string>)
    ensures DistinctKeys(CategoryTally(orders, categories))
    ensures TallySum(CategoryTally(orders, categories)) == LineRevenue(orders)
    decreases |orders|
  {
    if orders != [] {
      var n := |orders|;
      CategoryTallyTotals(orders[..n - 1], categories);
      ItemsIntoDistinct(CategoryTally(orders[..n - 1], categories), orders[n - 1].items, categories);
      ItemsIntoSum(CategoryTally(orders[..n - 1], categories), orders[n - 1].items, categories);
    }
  }

  function InCategory(categories: map<string, string>, c: string): LineItem -> bool {
    (l: LineItem) => CategoryOf(categories, l.productId) == c
  }

  /** Σ price × quantity over the lines, of every order, whose product is in category `c`. */
  function CategoryRevenue(orders: seq<Order>, categories: map<string, string>, c: string): real {
    if orders == [] then 0.0
    else CategoryRevenue(orders[..|orders| - 1], categories, c) +
         Subtotal(Filter(orders[|orders| - 1].items, InCategory(categories, c)))
  }

  /** The last line adds its amount to its own category's revenue and nothing to any other's. */
  lemma InCategoryStep(items: seq<LineItem>, categories: map<string, string>, c: string)
    requires items != []
    ensures var last := items[|items| - 1];
            Subtotal(Filter(items, InCategory(categories, c))) ==
            Subtotal(Filter(items[..|items| - 1], InCategory(categories, c))) +
            (if CategoryOf(categories, last.productId) == c then LineTotal(last) else 0.0)
  {
    var inCategory := InCategory(categories, c);
    var front, last := items[..|items| - 1], items[|items| - 1];
    FilterSnoc(items, inCategory);
    if inCategory(last) {
      SubtotalAppend(Filter(front, inCategory), last);
    } else {
      assert Filter(front, inCategory) + [] == Filter(front, inCategory);
    }
  }

  /** One more line raises its own category's entry by its amount and no other entry. */
  lemma ItemsIntoGetStep(t: seq<(string, real)>, items: seq<LineItem>, categories: map<string, string>, c: string)
    requires items != [] && DistinctKeys(ItemsInto(t, items[..|items| - 1], categories))
    ensures var last := items[|items| - 1];
            TallyGet(ItemsInto(t, items, categories), c) ==
            TallyGet(ItemsInto(t, items[..|items| - 1], categories), c) +
            (if CategoryOf(categories, last.productId) == c then LineTotal(last) else 0.0)
  {
    var last := items[|items| - 1];
    TallyAddGet(ItemsInto(t, items[..|items| - 1], categories), CategoryOf(categories, last.productId), LineTotal(last), c);
  }

  /** The inner loop adds to category `c` exactly the revenue of the order's lines in `c`. */
  lemma {:induction false} ItemsIntoGet(t: seq<(string, real)>, items: seq<LineItem>, categories: map<string, string>, c: string)
    requires DistinctKeys(t)
    ensures TallyGet(ItemsInto(t, items, categories), c) == TallyGet(t, c) + Subtotal(Filter(items, InCategory(categories, c)))
    decreases |items|
  {
    if items != [] {
      var front := items[..|items| - 1];
      ItemsIntoGet(t, front, categories, c);
      ItemsIntoDistinct(t, front, categories);
      ItemsIntoGetStep(t, items, categories, c);
      InCategoryStep(items, categories, c);
    }
  }

  /** A category's entry is Σ price × quantity over exactly the lines in that category. */
  lemma {:induction false} CategoryTallyGet(orders: seq<Order>, categories: map<string, string>, c: string)
    ensures TallyGet(CategoryTally(orders, categories), c) == CategoryRevenue(orders, categories, c)
    decreases |orders|
  {
    if orders != [] {
      var front := orders[..|orders| - 1];
      CategoryTallyGet(front, categories, c);
      CategoryTallyTotals(front, categories);
      ItemsIntoGet(CategoryTally(front, categories), orders[|orders| - 1].items, categories, c);
    }
  }

  /** A category with no entry in the tally has no revenue. */
  lemma CategoryAbsentNoRevenue(orders: seq<Order>, categories: map<string, string>, c: string)
    requires c !in Keys(CategoryTally(orders, categories))
    ensures CategoryRevenue(orders, categories, c) == 0.0
  {
    CategoryTallyGet(orders, categories, c);
    TallyGetAbsent(CategoryTally(orders, categories), c);
  }

  /** No category key is empty: a line without one is tallied under "unknown". */
  lemma {:induction false} CategoryKeysNamed(orders: seq<Order>, categories: map<string, string>)
    ensures "" !in Keys(CategoryTally(orders, categories))
    decreases |orders|
  {
    if orders != [] {
      CategoryKeysNamed(orders[..|orders| - 1], categories);
      ItemsKeysNamed(CategoryTally(orders[..|orders| - 1], categories), orders[|orders| - 1].items, categories);
    }
  }

  lemma {:induction false} ItemsKeysNamed(t: seq<(string, real)>, items: seq<LineItem>, categories: map<string, string>)
    requires "" !in Keys(t)
    ensures "" !in Keys(ItemsInto(t, items, categories))
    decreases |items|
  {
    if items != [] {
      ItemsKeysNamed(t, items[..|items| - 1], categories);
    }
  }

  /** `s.stock || 0`. */
  function StockOf(e: SizeEntry): (n: int)
    ensures e.stock.None? ==> n == 0
    ensures e.stock.Some? ==> n == e.stock.value
  {
    if e.stock.Some? then e.stock.value else 0
  }

  function TotalStock(sizes: seq<SizeEntry>): int {
    if sizes == [] then 0 else TotalStock(sizes[..|sizes| - 1]) + StockOf(sizes[|sizes| - 1])
  }

  /** The stock total splits over any division of the size list. */
  lemma {:induction false} TotalStockConcat(a: seq<SizeEntry>, b: seq<SizeEntry>)
    ensures TotalStock(a + b) == TotalStock(a) + TotalStock(b)
    decreases |b|
  {
    if b == [] {
      assert a + b == a;
    } else {
      var n := |b|;
      assert (a + b)[..|a + b| - 1] == a + b[..n - 1];
      TotalStockConcat(a, b[..n - 1]);
    }
  }

  datatype InventoryRow = InventoryRow(productId: string, name: string, category: string, price: real, totalStock: int)

  datatype InventoryReport = InventoryReport(rows: seq<InventoryRow>, lowStock: seq<InventoryRow>, totalProducts: nat)

  function RowOf(p: Product): InventoryRow {
    InventoryRow(p.id, p.name, p.category, p.price, TotalStock(p.sizes))
  }

  /** GET /inventory: one row per product with its stock total, the rows below ten
      units, and the product count. */
  function StockReport(products: seq<Product>): (r: InventoryReport)
    ensures |r.rows| == |products| == r.totalProducts
    ensures forall i :: 0 <= i < |products| ==> r.rows[i] == RowOf(products[i])
    ensures forall row :: row in r.lowStock <==> row in r.rows && row.totalStock < LowStockBelow
  {
    var rows := seq(|products|, i requires 0 <= i < |products| => RowOf(products[i]));
    InventoryReport(rows, Filter(rows, (row: InventoryRow) => row.totalStock < LowStockBelow), |products|)
  }
}
