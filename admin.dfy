/** The admin back office (src/routes/admin.js): the order-status update, the
    sales report with its optional date bounds, and the inventory low-stock
    report. The stored lists are inputs. */
module Admin {
  import opened Common
  import opened Models

  /** The `createdAt` part of the sales query; each bound is present only when its
      date was given. The whole part is absent when neither was. */
  datatype DateBounds = DateBounds(gte: Option<int>, lte: Option<int>)

  function SalesFilter(startDate: Option<int>, endDate: Option<int>): (q: Option<DateBounds>)
    ensures q.None? <==> startDate.None? && endDate.None?
    ensures q.Some? ==> q.value.gte == startDate && q.value.lte == endDate
  {
    if startDate.Some? || endDate.Some? then Some(DateBounds(startDate, endDate)) else None
  }

  /** What the query matches: an absent bound does not constrain. */
  predicate Matches(q: Option<DateBounds>, o: Order) {
    q.None? ||
    ((q.value.gte.None? || q.value.gte.value <= o.createdAt) &&
     (q.value.lte.None? || o.createdAt <= q.value.lte.value))
  }

  /** With no dates every order matches; with both, exactly those created in the
      inclusive range; with one, exactly those on its side of it. */
  lemma SalesFilterMeaning(startDate: Option<int>, endDate: Option<int>, o: Order)
    ensures startDate.None? && endDate.None? ==> Matches(SalesFilter(startDate, endDate), o)
    ensures startDate.Some? && endDate.Some? ==>
              (Matches(SalesFilter(startDate, endDate), o) <==> startDate.value <= o.createdAt <= endDate.value)
    ensures startDate.Some? && endDate.None? ==>
              (Matches(SalesFilter(startDate, endDate), o) <==> startDate.value <= o.createdAt)
    ensures startDate.None? && endDate.Some? ==>
              (Matches(SalesFilter(startDate, endDate), o) <==> o.createdAt <= endDate.value)
  {
  }

  /** The sales report's numbers. The average is `totalRevenue / totalOrders` with no
      guard: over no orders it is NaN, which the JSON response carries as null. */
  datatype SalesSummary = SalesSummary(totalRevenue: real, totalOrders: nat, averageOrderValue: Option<real>)

  function SalesReport(orders: seq<Order>): (r: SalesSummary)
    ensures r.totalRevenue == Revenue(orders) && r.totalOrders == |orders|
    ensures r.averageOrderValue.None? <==> orders == []
    ensures r.averageOrderValue.Some? ==> r.averageOrderValue.value * |orders| as real == r.totalRevenue
  {
    var revenue := Revenue(orders);
    var n := |orders|;
    SalesSummary(revenue, n, if n == 0 then None else Some(revenue / n as real))
  }

  /** Revenue adds up over the orders: one more order raises it by that order's total. */
  lemma {:induction false} RevenueCons(o: Order, orders: seq<Order>)
    ensures Revenue([o] + orders) == o.total + Revenue(orders)
    decreases |orders|
  {
    if orders == [] {
      assert [o] + orders == [o];
    } else {
      var n := |orders|;
      assert ([o] + orders)[..n] == [o] + orders[..n - 1];
      RevenueCons(o, orders[..n - 1]);
    }
  }

  /** PUT /orders/:id/status. The new status is written as requested: the update
      neither checks a transition nor runs the schema's validators. An unknown id is
      not found. */
  function UpdateStatus(orders: map<string, Order>, id: string, status: string): (r: Option<map<string, Order>>)
    ensures r.None? <==> id !in orders
    ensures r.Some? ==> r.value.Keys == orders.Keys && r.value[id] == orders[id].(status := status)
    ensures r.Some? ==> forall k :: k in orders && k != id ==> r.value[k] == orders[k]
  {
    if id !in orders then None else Some(orders[id := orders[id].(status := status)])
  }

  /** Any status may follow any other, including one outside the schema's list:
      a delivered order can be set back to pending, or to "refunded". */
  lemma AnyTransitionAccepted(orders: map<string, Order>, id: string, status: string)
    requires id in orders
    ensures UpdateStatus(orders, id, status).Some?
    ensures UpdateStatus(orders, id, status).value[id].status == status
    ensures UpdateStatus(UpdateStatus(orders, id, status).value, id, orders[id].status) == Some(orders)
  {
    var once := UpdateStatus(orders, id, status).value;
    var back := UpdateStatus(once, id, orders[id].status).value;
    assert back == orders;
  }

  datatype StockSummary = StockSummary(lowStock: seq<InventoryRecord>, totalItems: nat)

  /** GET /reports/inventory: the records below their restock threshold, and the
      number of records. */
  function InventoryReport(records: seq<InventoryRecord>): (r: StockSummary)
    ensures r.totalItems == |records|
    ensures forall x :: x in r.lowStock <==> x in records && x.quantity < x.restockThreshold
    ensures |r.lowStock| <= |records|
  {
    StockSummary(Filter(records, (x: InventoryRecord) => x.quantity < x.restockThreshold), |records|)
  }

  /** Splitting the records splits the low-stock list the same way, in order. */
  lemma InventoryReportConcat(a: seq<InventoryRecord>, b: seq<InventoryRecord>)
    ensures InventoryReport(a + b).lowStock == InventoryReport(a).lowStock + InventoryReport(b).lowStock
  {
    FilterAppend(a, b, (x: InventoryRecord) => x.quantity < x.restockThreshold);
  }
}
