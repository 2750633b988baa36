/**
 * The four reports: pure reductions over the rows the repositories return,
 * each a sequence in repository order. Money is in hundredths (the scale-2
 * `BigDecimal` columns); the floating-point figures are not modelled.
 */
module ReportService {
  import opened Common
  import opened Lists
  import opened Grouping
  import opened InventoryEntity
  import O = OrderEntity
  import opened ShipmentEntity
  import opened Store

  /** The `counting()` collector: every element weighs 1. */
  function One<T>(x: T): int { 1 }

  function Abs(x: int): int { if x < 0 then -x else x }

  /** The remainder left by rounding a non-negative `a / n` half up lies in [-n/2, n/2). */
  lemma HalfUpRemainder(a: int, n: int)
    requires a >= 0 && n > 0
    ensures var q := (2 * a + n) / (2 * n);
      -n <= 2 * (a - q * n) < n
  {
    var d := 2 * n;
    var q := (2 * a + n) / d;
    var m := (2 * a + n) % d;
    assert 2 * a + n == q * d + m && 0 <= m < d;
    assert q * d == 2 * (q * n);
  }

  /**
   * `a / n` rounded to a whole number of hundredths, `ROUND_HALF_UP`:
   * to the nearest, and a tie away from zero.
   */
  function DivHalfUp(a: int, n: int): (q: int)
    requires n > 0
    ensures 2 * Abs(a - q * n) <= n
    ensures 2 * Abs(a - q * n) == n ==> Abs(q * n) > Abs(a)
  {
    if a >= 0 then
      HalfUpRemainder(a, n);
      (2 * a + n) / (2 * n)
    else
      HalfUpRemainder(-a, n);
      var q' := (2 * -a + n) / (2 * n);
      assert a - -q' * n == -(-a - q' * n);
      -q'
  }

  // ---- Sales report ----

  datatype SalesReport = SalesReport(
    totalSales: int,
    totalOrders: int,
    avgOrderValue: int,
    ordersByStatus: seq<(O.OrderStatus, int)>,
    dailySales: seq<(int, int)>)

  /** `findByOrderDateBetween`: SQL BETWEEN, both ends included. */
  function OrdersBetween(orders: seq<O.Order>, start: Time, end: Time): seq<O.Order>
  {
    Filter(orders, (o: O.Order) => start <= o.orderDate <= end)
  }

  predicate Sold(o: O.Order) { o.status != O.CANCELLED }
  function AmountOf(o: O.Order): int { o.totalAmount }
  function OrderStatusOf(o: O.Order): O.OrderStatus { o.status }
  function OrderDay(o: O.Order): int { DayOf(o.orderDate) }

  /** `generateSalesReport`. */
  function SalesReportOf(orders: seq<O.Order>, start: Time, end: Time): SalesReport
  {
    var inRange := OrdersBetween(orders, start, end);
    var sold := Filter(inRange, Sold);
    var total := SumOf(sold, AmountOf);
    SalesReport(total, |sold|,
                if |sold| > 0 then DivHalfUp(total, |sold|) else 0,
                GroupBy(inRange, OrderStatusOf, One),
                GroupBy(sold, OrderDay, AmountOf))
  }

  /** The orders counted as sales and the CANCELLED ones together make up the list. */
  lemma {:induction false} SoldAndCancelled(xs: seq<O.Order>)
    ensures |Filter(xs, Sold)| + SumWhere(xs, OrderStatusOf, One, O.CANCELLED) == |xs|
  {
    if xs != [] {
      SoldAndCancelled(xs[..|xs| - 1]);
    }
  }

  /**
   * The sales figures agree: the daily buckets add up to totalSales; the
   * status counts, cancelled included, add up to every order in range, of
   * which totalOrders are the non-cancelled ones; the average is totalSales
   * per order to the nearest hundredth, and 0 without sales.
   */
  lemma SalesReportConsistent(orders: seq<O.Order>, start: Time, end: Time)
    ensures var r := SalesReportOf(orders, start, end);
      && Total(r.dailySales) == r.totalSales
      && Total(r.ordersByStatus) == |OrdersBetween(orders, start, end)|
      && r.totalOrders + SumWhere(OrdersBetween(orders, start, end), OrderStatusOf, One, O.CANCELLED)
         == |OrdersBetween(orders, start, end)|
      && (r.totalOrders == 0 ==> r.totalSales == 0 && r.avgOrderValue == 0)
      && (r.totalOrders > 0 ==> 2 * Abs(r.totalSales - r.avgOrderValue * r.totalOrders) <= r.totalOrders)
  {
    var inRange := OrdersBetween(orders, start, end);
    var sold := Filter(inRange, Sold);
    GroupByTotal(sold, OrderDay, AmountOf);
    GroupByTotal(inRange, OrderStatusOf, One);
    SumOfConstant(inRange, One, 1);
    SoldAndCancelled(inRange);
  }

  /** Every order in the report's range lies between the two dates, both included. */
  lemma OrdersBetweenBounds(orders: seq<O.Order>, start: Time, end: Time)
    ensures forall i :: 0 <= i < |OrdersBetween(orders, start, end)| ==>
      start <= OrdersBetween(orders, start, end)[i].orderDate <= end
    ensures forall i :: 0 <= i < |orders| && start <= orders[i].orderDate <= end ==>
      orders[i] in OrdersBetween(orders, start, end)
  {
  }

  // ---- Inventory report ----

  /** An inventory row as the report reads it, with its product's price and category and its warehouse's name. */
  datatype StockRow = StockRow(stock: Inventory, price: int, category: Option<string>, warehouseName: string)

  datatype InventoryReport = InventoryReport(
    totalValue: int,
    totalSkus: int,
    totalQuantity: int,
    lowStockCount: int,
    overStockCount: int,
    byCategory: seq<(string, int)>,
    byWarehouse: seq<(string, int)>)

  function RowValue(r: StockRow): int { r.price * r.stock.quantity }
  function RowQuantity(r: StockRow): int { r.stock.quantity }
  function RowCategory(r: StockRow): string { if r.category.Some? then r.category.value else "" }
  function RowWarehouse(r: StockRow): string { r.warehouseName }
  /** `findLowStockItems`: `quantity < minThreshold`. */
  predicate RowLow(r: StockRow) { r.stock.quantity < r.stock.minThreshold }
  /** `findOverStockItems`: `quantity > maxThreshold`. */
  predicate RowOver(r: StockRow) { r.stock.quantity > r.stock.maxThreshold }

  /**
   * `generateInventoryReport`. Grouping by category throws on a product
   * without a category, as `groupingBy` does on a null key.
   */
  function InventoryReportOf(rows: seq<StockRow>): Result<InventoryReport>
  {
    if exists i | 0 <= i < |rows| :: rows[i].category.None? then
      Err(NullKey("element cannot be mapped to a null key"))
    else
      Ok(InventoryReport(SumOf(rows, RowValue), |rows|, SumOf(rows, RowQuantity),
                         |Filter(rows, RowLow)|, |Filter(rows, RowOver)|,
                         GroupBy(rows, RowCategory, RowQuantity),
                         GroupBy(rows, RowWarehouse, RowQuantity)))
  }

  /**
   * The report fails exactly when some product has no category. Otherwise
   * both groupings add up to totalQuantity and each stock count is at most
   * the number of rows.
   */
  lemma InventoryReportConsistent(rows: seq<StockRow>)
    ensures InventoryReportOf(rows).Err? <==> exists i | 0 <= i < |rows| :: rows[i].category.None?
    ensures InventoryReportOf(rows).Ok? ==>
      var r := InventoryReportOf(rows).value;
      && Total(r.byCategory) == r.totalQuantity
      && Total(r.byWarehouse) == r.totalQuantity
      && r.totalSkus == |rows|
      && r.lowStockCount <= r.totalSkus && r.overStockCount <= r.totalSkus
  {
    if InventoryReportOf(rows).Ok? {
      var r := InventoryReportOf(rows).value;
      assert r.totalQuantity == SumOf(rows, RowQuantity);
      assert r.byCategory == GroupBy(rows, RowCategory, RowQuantity);
      assert r.byWarehouse == GroupBy(rows, RowWarehouse, RowQuantity);
      GroupByTotal(rows, RowCategory, RowQuantity);
      GroupByTotal(rows, RowWarehouse, RowQuantity);
    }
  }

  /** The two stock queries select exactly the rows the entity calls low and over stock. */
  lemma StockQueriesMatchEntity(row: StockRow)
    ensures RowLow(row) <==> IsLowStock(row.stock)
    ensures RowOver(row) <==> IsOverStock(row.stock)
  {
  }

  /** When every row's thresholds are in order, low and over stock are disjoint, so the two counts fit in the row count. */
  lemma {:induction false} LowAndOverDisjoint(rows: seq<StockRow>)
    requires forall i :: 0 <= i < |rows| ==> rows[i].stock.minThreshold <= rows[i].stock.maxThreshold
    ensures |Filter(rows, RowLow)| + |Filter(rows, RowOver)| <= |rows|
  {
    if rows != [] {
      LowAndOverDisjoint(rows[..|rows| - 1]);
      NeverLowAndOver(rows[|rows| - 1].stock);
    }
  }

  // ---- Shipment report ----

  datatype ShipmentReport = ShipmentReport(
    totalShipments: int,
    byStatus: seq<(ShipmentStatus, int)>,
    deliveredOnTime: int,
    totalDelivered: int,
    delayedShipments: int)

  /** `createdAt.isAfter(start) && createdAt.isBefore(end)`: both ends excluded. */
  function ShipmentsBetween(shipments: seq<Shipment>, start: Time, end: Time): seq<Shipment>
  {
    Filter(shipments, (s: Shipment) => start < s.createdAt < end)
  }

  function ShipmentStatusOf(s: Shipment): ShipmentStatus { s.status }
  predicate Delivered(s: Shipment) { s.status == DELIVERED }

  /** Delivered with both times known and no later than the estimate. */
  predicate DeliveredOnTime(s: Shipment)
  {
    && s.status == DELIVERED
    && s.actualDeliveryTime.Some? && s.estimatedDeliveryTime.Some?
    && s.actualDeliveryTime.value <= s.estimatedDeliveryTime.value
  }

  /** `findDelayedShipments(now)`: estimate before now and neither DELIVERED nor CANCELLED. */
  predicate QueryDelayed(s: Shipment, now: Time)
  {
    s.estimatedDeliveryTime.Some? && s.estimatedDeliveryTime.value < now
    && s.status != DELIVERED && s.status != CANCELLED
  }

  function DelayedShipments(shipments: seq<Shipment>, now: Time): seq<Shipment>
  {
    Filter(shipments, (s: Shipment) => QueryDelayed(s, now))
  }

  /** `generateShipmentReport`; the delayed count is over all shipments, not the period. */
  function ShipmentReportOf(shipments: seq<Shipment>, start: Time, end: Time, now: Time): ShipmentReport
  {
    var inRange := ShipmentsBetween(shipments, start, end);
    ShipmentReport(|inRange|, GroupBy(inRange, ShipmentStatusOf, One),
                   |Filter(inRange, DeliveredOnTime)|, |Filter(inRange, Delivered)|,
                   |DelayedShipments(shipments, now)|)
  }

  /**
   * The status counts add up to the shipments in the period; on-time
   * deliveries never outnumber deliveries; the delayed count covers at most
   * every shipment.
   */
  lemma ShipmentReportConsistent(shipments: seq<Shipment>, start: Time, end: Time, now: Time)
    ensures var r := ShipmentReportOf(shipments, start, end, now);
      && Total(r.byStatus) == r.totalShipments
      && 0 <= r.deliveredOnTime <= r.totalDelivered <= r.totalShipments
      && r.delayedShipments <= |shipments|
  {
    var inRange := ShipmentsBetween(shipments, start, end);
    GroupByTotal(inRange, ShipmentStatusOf, One);
    SumOfConstant(inRange, One, 1);
    FilterStronger(inRange, DeliveredOnTime, Delivered);
  }

  /**
   * The report's delayed query and the entity's `isDelayed` differ only on
   * CANCELLED shipments: the query leaves them out, the entity counts them.
   */
  lemma DelayedQueryVersusEntity(s: Shipment, now: Time)
    ensures QueryDelayed(s, now) <==> IsDelayed(s, now) && s.status != CANCELLED
  {
  }

  // ---- Inventory movement report ----

  datatype MovementReport = MovementReport(
    totalStockIn: int,
    totalStockOut: int,
    netMovement: int,
    transactionsByType: seq<(TransactionType, int)>,
    totalTransactions: int)

  function KindOf(t: InventoryTransaction): TransactionType { t.kind }
  function QuantityOf(t: InventoryTransaction): int { t.quantity }

  /** `findByDateRange` (BETWEEN, both ends included), then the product's own transactions. */
  function MovementsOf(transactions: seq<InventoryTransaction>, productId: Id, start: Time, end: Time): seq<InventoryTransaction>
  {
    Filter(transactions, (t: InventoryTransaction) => start <= t.transactionDate <= end && t.inventory.0 == productId)
  }

  /** The totals of a list of movements. */
  function Movement(txs: seq<InventoryTransaction>): MovementReport
  {
    var stockIn := SumWhere(txs, KindOf, QuantityOf, STOCK_IN);
    var stockOut := SumWhere(txs, KindOf, QuantityOf, STOCK_OUT);
    MovementReport(stockIn, stockOut, stockIn - stockOut, GroupBy(txs, KindOf, One), |txs|)
  }

  /** `generateInventoryMovementReport`. */
  function MovementReportOf(transactions: seq<InventoryTransaction>, productId: Id, start: Time, end: Time): MovementReport
  {
    Movement(MovementsOf(transactions, productId, start, end))
  }

  /** The per-type counts add up to totalTransactions. */
  lemma MovementCounts(txs: seq<InventoryTransaction>)
    ensures Total(Movement(txs).transactionsByType) == Movement(txs).totalTransactions
  {
    GroupByTotal(txs, KindOf, One);
    SumOfConstant(txs, One, 1);
  }

  /**
   * One more movement counts toward totalTransactions, and moves stock in,
   * stock out and the net only when it is a STOCK_IN or STOCK_OUT: transfers,
   * adjustments, returns and damage count toward neither sum.
   */
  lemma MovementStep(txs: seq<InventoryTransaction>, t: InventoryTransaction)
    ensures var before := Movement(txs);
      var after := Movement(txs + [t]);
      && after.totalTransactions == before.totalTransactions + 1
      && after.totalStockIn == before.totalStockIn + (if t.kind == STOCK_IN then t.quantity else 0)
      && after.totalStockOut == before.totalStockOut + (if t.kind == STOCK_OUT then t.quantity else 0)
      && (t.kind != STOCK_IN && t.kind != STOCK_OUT ==> after.netMovement == before.netMovement)
  {
    assert (txs + [t])[..|txs|] == txs;
  }
}
