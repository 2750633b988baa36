/**
 * Order placement and the order status workflow. Placing an order checks and
 * reserves stock line by line; cancelling releases the reservations and
 * shipping consumes them. Each call is one transaction: a failure anywhere
 * leaves orders and inventory as they were.
 */
module OrderService {
  import opened Common
  import opened Grouping
  import opened InventoryEntity
  import opened OrderItemEntity
  import opened OrderEntity
  import opened Store

  datatype OrderItemRequest = OrderItemRequest(
    productId: Id,
    quantity: int,
    price: Option<int>,
    discount: Option<int>,
    notes: Option<string>)

  datatype OrderRequest = OrderRequest(
    warehouseId: Id,
    customerId: Option<Id>,
    items: seq<OrderItemRequest>,
    contact: ShippingContact,
    shippingFee: Option<int>,
    discount: Option<int>,
    paymentMethod: Option<string>,
    notes: Option<string>)

  function LineProduct(line: OrderItemRequest): Id
  {
    line.productId
  }

  function LineQuantity(line: OrderItemRequest): int
  {
    line.quantity
  }

  /** Units of product `p` asked for by `lines`. */
  function Requested(lines: seq<OrderItemRequest>, p: Id): int
  {
    SumWhere(lines, LineProduct, LineQuantity, p)
  }

  /** An order line: the requested price or else the catalogue price, no discount unless given. */
  function BuildItem(product: Product, line: OrderItemRequest): OrderItem
  {
    CalculateSubtotal(OrderItem(
      line.productId,
      line.quantity,
      if line.price.Some? then line.price.value else product.profile.price,
      if line.discount.Some? then line.discount.value else 0,
      0,
      line.notes))
  }

  /** The state of the item loop: lines built so far, running subtotal, inventory with reservations. */
  datatype Reservation = Reservation(items: seq<OrderItem>, subtotal: int, inventory: map<(Id, Id), Inventory>)

  /** One pass of the item loop. */
  function ReserveStep(products: map<Id, Product>, w: Id, acc: Reservation, line: OrderItemRequest): Result<Reservation>
  {
    if line.productId !in products then Err(NotFound("Product not found"))
    else if (line.productId, w) !in acc.inventory then Err(Business("Product not available in warehouse"))
    else
      var row := acc.inventory[(line.productId, w)];
      if AvailableQuantity(row) < line.quantity then Err(Business("Insufficient stock for product"))
      else
        var item := BuildItem(products[line.productId], line);
        Ok(Reservation(acc.items + [item], acc.subtotal + item.subtotal,
                       acc.inventory[(line.productId, w) := row.(reservedQuantity := row.reservedQuantity + line.quantity)]))
  }

  /** The item loop over `lines`, stopping at the first failure. */
  function Reserve(products: map<Id, Product>, inv: map<(Id, Id), Inventory>, w: Id, lines: seq<OrderItemRequest>): Result<Reservation>
  {
    if lines == [] then Ok(Reservation([], 0, inv))
    else
      match Reserve(products, inv, w, lines[..|lines| - 1])
      case Err(f) => Err(f)
      case Ok(acc) => ReserveStep(products, w, acc, lines[|lines| - 1])
  }

  /** Once the loop has failed on a prefix, it fails the same way on the whole list. */
  lemma {:induction false} ReserveFailureSticks(products: map<Id, Product>, inv: map<(Id, Id), Inventory>, w: Id,
                                                lines: seq<OrderItemRequest>, i: nat)
    requires i <= |lines|
    requires Reserve(products, inv, w, lines[..i]).Err?
    ensures Reserve(products, inv, w, lines) == Reserve(products, inv, w, lines[..i])
    decreases |lines| - i
  {
    if i == |lines| {
      assert lines[..i] == lines;
    } else {
      assert lines[..|lines| - 1][..i] == lines[..i];
      ReserveFailureSticks(products, inv, w, lines[..|lines| - 1], i);
    }
  }

  /** The item loop of `createOrder`, run on a copy of the inventory table. */
  method ReserveItems(products: map<Id, Product>, inv: map<(Id, Id), Inventory>, w: Id, lines: seq<OrderItemRequest>)
    returns (r: Result<Reservation>)
    ensures r == Reserve(products, inv, w, lines)
  {
    var items: seq<OrderItem> := [];
    var subtotal := 0;
    var stock := inv;
    var i := 0;
    while i < |lines|
      invariant 0 <= i <= |lines|
      invariant Reserve(products, inv, w, lines[..i]) == Ok(Reservation(items, subtotal, stock))
    {
      var line := lines[i];
      assert lines[..i + 1][..i] == lines[..i];
      assert Reserve(products, inv, w, lines[..i + 1]) == ReserveStep(products, w, Reservation(items, subtotal, stock), line);
      if line.productId !in products {
        ReserveFailureSticks(products, inv, w, lines, i + 1);
        return Err(NotFound("Product not found"));
      }
      var key := (line.productId, w);
      if key !in stock {
        ReserveFailureSticks(products, inv, w, lines, i + 1);
        return Err(Business("Product not available in warehouse"));
      }
      var row := stock[key];
      if AvailableQuantity(row) < line.quantity {
        ReserveFailureSticks(products, inv, w, lines, i + 1);
        return Err(Business("Insufficient stock for product"));
      }
      var item := BuildItem(products[line.productId], line);
      items := items + [item];
      subtotal := subtotal + item.subtotal;
      stock := stock[key := row.(reservedQuantity := row.reservedQuantity + line.quantity)];
      i := i + 1;
    }
    assert lines[..|lines|] == lines;
    r := Ok(Reservation(items, subtotal, stock));
  }

  /**
   * A successful loop touches only `reservedQuantity`, and only in the order's
   * warehouse, where it rises by the total quantity requested of each product.
   */
  lemma {:induction false} ReserveReservations(products: map<Id, Product>, inv: map<(Id, Id), Inventory>, w: Id,
                                               lines: seq<OrderItemRequest>)
    requires Reserve(products, inv, w, lines).Ok?
    ensures var after := Reserve(products, inv, w, lines).value.inventory;
      && after.Keys == inv.Keys
      && (forall k :: k in inv ==> after[k] == inv[k].(reservedQuantity := after[k].reservedQuantity))
      && (forall k :: k in inv ==>
            after[k].reservedQuantity == inv[k].reservedQuantity + (if k.1 == w then Requested(lines, k.0) else 0))
  {
    if lines != [] {
      ReserveReservations(products, inv, w, lines[..|lines| - 1]);
    }
  }

  /** A successful loop builds one order line per request line, and the subtotal is their sum. */
  lemma {:induction false} ReserveItemsBuilt(products: map<Id, Product>, inv: map<(Id, Id), Inventory>, w: Id,
                                             lines: seq<OrderItemRequest>)
    requires Reserve(products, inv, w, lines).Ok?
    ensures var acc := Reserve(products, inv, w, lines).value;
      && |acc.items| == |lines|
      && (forall i :: 0 <= i < |lines| ==>
            lines[i].productId in products && acc.items[i] == BuildItem(products[lines[i].productId], lines[i]))
      && acc.subtotal == SumOf(acc.items, ItemSubtotal)
  {
    if lines != [] {
      var prefix := lines[..|lines| - 1];
      ReserveItemsBuilt(products, inv, w, prefix);
      var acc0 := Reserve(products, inv, w, prefix).value;
      var acc := Reserve(products, inv, w, lines).value;
      assert acc.items[..|acc.items| - 1] == acc0.items;
    }
  }

  /** Every line was checked against the stock left by earlier lines, so no touched record is over-reserved. */
  lemma {:induction false} ReserveKeepsAvailable(products: map<Id, Product>, inv: map<(Id, Id), Inventory>, w: Id,
                                                 lines: seq<OrderItemRequest>)
    requires Reserve(products, inv, w, lines).Ok?
    ensures var after := Reserve(products, inv, w, lines).value.inventory;
      forall i :: 0 <= i < |lines| ==>
        (lines[i].productId, w) in after && AvailableQuantity(after[(lines[i].productId, w)]) >= 0
  {
    if lines != [] {
      var prefix := lines[..|lines| - 1];
      ReserveKeepsAvailable(products, inv, w, prefix);
      assert forall i :: 0 <= i < |prefix| ==> lines[i] == prefix[i];
    }
  }

  /** Line `i` passes its check: the stock of its product covers all units asked for up to and including it. */
  predicate LineAccepted(products: map<Id, Product>, inv: map<(Id, Id), Inventory>, w: Id,
                         lines: seq<OrderItemRequest>, i: int)
    requires 0 <= i < |lines|
  {
    var p := lines[i].productId;
    p in products && (p, w) in inv && AvailableQuantity(inv[(p, w)]) >= Requested(lines[..i + 1], p)
  }

  /** The loop succeeds exactly when every line passes its check against the original stock. */
  lemma {:induction false} ReserveSucceedsIff(products: map<Id, Product>, inv: map<(Id, Id), Inventory>, w: Id,
                                              lines: seq<OrderItemRequest>)
    ensures Reserve(products, inv, w, lines).Ok? <==>
      forall i :: 0 <= i < |lines| ==> LineAccepted(products, inv, w, lines, i)
  {
    if lines != [] {
      var n := |lines|;
      var prefix := lines[..n - 1];
      ReserveSucceedsIff(products, inv, w, prefix);
      forall i | 0 <= i < n - 1
        ensures LineAccepted(products, inv, w, lines, i) == LineAccepted(products, inv, w, prefix, i)
      {
        assert lines[..i + 1] == prefix[..i + 1];
      }
      assert lines[..n] == lines;
      if Reserve(products, inv, w, prefix).Ok? {
        ReserveReservations(products, inv, w, prefix);
        var acc := Reserve(products, inv, w, prefix).value;
        var x := lines[n - 1];
        var p := x.productId;
        assert Requested(lines, p) == Requested(prefix, p) + x.quantity;
        if (p, w) in inv {
          assert AvailableQuantity(acc.inventory[(p, w)]) == AvailableQuantity(inv[(p, w)]) - Requested(prefix, p);
        }
        assert Reserve(products, inv, w, lines) == ReserveStep(products, w, acc, x);
        assert ReserveStep(products, w, acc, x).Ok? <==> LineAccepted(products, inv, w, lines, n - 1);
      } else {
        var i :| 0 <= i < n - 1 && !LineAccepted(products, inv, w, prefix, i);
        assert !LineAccepted(products, inv, w, lines, i);
      }
    }
  }

  /** The order `createOrder` saves once the item loop has succeeded. */
  function NewOrder(req: OrderRequest, orderNumber: string, now: Time, acc: Reservation): Order
  {
    CalculateTotalAmount(Order(
      orderNumber, req.warehouseId, req.customerId, PENDING, req.contact,
      acc.subtotal,
      if req.shippingFee.Some? then req.shippingFee.value else 0,
      if req.discount.Some? then req.discount.value else 0,
      0,
      0,
      req.paymentMethod, "PENDING", req.notes,
      now, Some(now + 3 * SecondsPerDay), None,
      acc.items))
  }

  /** A new order is PENDING and unpaid, without tax, with absent fees and discounts as zero, and consistent totals. */
  lemma NewOrderDefaults(req: OrderRequest, orderNumber: string, now: Time, acc: Reservation)
    requires acc.subtotal == SumOf(acc.items, ItemSubtotal)
    ensures var o := NewOrder(req, orderNumber, now, acc);
      && o.status == PENDING && o.paymentStatus == "PENDING" && o.tax == 0
      && (req.shippingFee.None? ==> o.shippingFee == 0)
      && (req.discount.None? ==> o.discount == 0)
      && o.subtotal == acc.subtotal
      && o.totalAmount == acc.subtotal + o.shippingFee - o.discount
      && o.items == acc.items
      && o.expectedDeliveryDate == Some(now + 3 * SecondsPerDay)
  {
  }

  /** `createOrder`; `orderNumber` stands for the generated "ORD-<date>-<random>" value. */
  method CreateOrder(db: Database, req: OrderRequest, orderNumber: string, now: Time) returns (r: Result<Id>)
    requires db.Valid()
    modifies db`orders, db`inventory, db`nextId
    ensures db.Valid()
    ensures req.warehouseId !in db.warehouses ==> r == Err(NotFound("Warehouse not found"))
    ensures req.warehouseId in db.warehouses && req.customerId.Some? && req.customerId.value !in db.users ==>
      r == Err(NotFound("Customer not found"))
    ensures req.warehouseId in db.warehouses && (req.customerId.Some? ==> req.customerId.value in db.users)
            && Reserve(db.products, old(db.inventory), req.warehouseId, req.items).Err? ==>
      r == Err(Reserve(db.products, old(db.inventory), req.warehouseId, req.items).failure)
    ensures r.Ok? <==>
      && req.warehouseId in db.warehouses
      && (req.customerId.Some? ==> req.customerId.value in db.users)
      && Reserve(db.products, old(db.inventory), req.warehouseId, req.items).Ok?
    ensures r.Err? ==>
      db.orders == old(db.orders) && db.inventory == old(db.inventory) && db.nextId == old(db.nextId)
    ensures r.Ok? ==>
      var acc := Reserve(db.products, old(db.inventory), req.warehouseId, req.items).value;
      && r.value !in old(db.orders)
      && db.orders == old(db.orders)[r.value := NewOrder(req, orderNumber, now, acc)]
      && db.inventory == acc.inventory
  {
    if req.warehouseId !in db.warehouses {
      return Err(NotFound("Warehouse not found"));
    }
    if req.customerId.Some? && req.customerId.value !in db.users {
      return Err(NotFound("Customer not found"));
    }
    var reserved := ReserveItems(db.products, db.inventory, req.warehouseId, req.items);
    match reserved {
      case Err(f) =>
        return Err(f);
      case Ok(acc) =>
        var id := db.nextId;
        var orders := db.orders[id := NewOrder(req, orderNumber, now, acc)];
        db.nextId, db.orders, db.inventory := id + 1, orders, acc.inventory;
        r := Ok(id);
    }
  }

  /** `validateStatusTransition`: the failure it throws, if any. */
  function ValidateStatusTransition(from: OrderStatus, to: OrderStatus): Option<Failure>
  {
    if from == DELIVERED || from == CANCELLED then Some(Business("Cannot change status from " + OrderStatusName(from)))
    else None
  }

  /** Only DELIVERED and CANCELLED are final; every other pair, the same status included, is accepted. */
  lemma TransitionRules(from: OrderStatus, to: OrderStatus)
    ensures ValidateStatusTransition(from, to).Some? <==> from == DELIVERED || from == CANCELLED
    ensures from != DELIVERED && from != CANCELLED ==> ValidateStatusTransition(from, from).None?
  {
  }

  /** What a status change does to the stock of the order's lines. */
  datatype Adjustment = ReleaseReservation | DeductStock(now: Time)

  function ItemProduct(item: OrderItem): Id
  {
    item.product
  }

  /** Units of product `p` on the order's lines. */
  function Units(items: seq<OrderItem>, p: Id): int
  {
    SumWhere(items, ItemProduct, ItemQuantity, p)
  }

  function AdjustRow(row: Inventory, q: int, mode: Adjustment): Inventory
  {
    match mode
    case ReleaseReservation => row.(reservedQuantity := row.reservedQuantity - q)
    case DeductStock(now) =>
      row.(quantity := row.quantity - q, reservedQuantity := row.reservedQuantity - q, lastStockOut := Some(now))
  }

  /** `releaseInventory` / `deductInventory` over the order's lines, failing on a missing record. */
  function Adjust(inv: map<(Id, Id), Inventory>, w: Id, items: seq<OrderItem>, mode: Adjustment): Result<map<(Id, Id), Inventory>>
  {
    if items == [] then Ok(inv)
    else
      match Adjust(inv, w, items[..|items| - 1], mode)
      case Err(f) => Err(f)
      case Ok(stock) =>
        var item := items[|items| - 1];
        if (item.product, w) !in stock then Err(Business("Inventory not found"))
        else Ok(stock[(item.product, w) := AdjustRow(stock[(item.product, w)], item.quantity, mode)])
  }

  lemma {:induction false} AdjustFailureSticks(inv: map<(Id, Id), Inventory>, w: Id, items: seq<OrderItem>,
                                               mode: Adjustment, i: nat)
    requires i <= |items|
    requires Adjust(inv, w, items[..i], mode).Err?
    ensures Adjust(inv, w, items, mode) == Adjust(inv, w, items[..i], mode)
    decreases |items| - i
  {
    if i == |items| {
      assert items[..i] == items;
    } else {
      assert items[..|items| - 1][..i] == items[..i];
      AdjustFailureSticks(inv, w, items[..|items| - 1], mode, i);
    }
  }

  /**
   * Adjusting succeeds exactly when every line's product has a record in the
   * order's warehouse. Then the reservation of each product drops by its units
   * on the order; deducting also drops the quantity by the same amount, so the
   * available quantity is unchanged; releasing leaves the quantity alone.
   */
  lemma {:induction false} AdjustEffect(inv: map<(Id, Id), Inventory>, w: Id, items: seq<OrderItem>, mode: Adjustment)
    ensures Adjust(inv, w, items, mode).Ok? <==> forall i :: 0 <= i < |items| ==> (items[i].product, w) in inv
    ensures Adjust(inv, w, items, mode).Ok? ==>
      var after := Adjust(inv, w, items, mode).value;
      && after.Keys == inv.Keys
      && (forall k :: k in inv && k.1 != w ==> after[k] == inv[k])
      && (forall p :: (p, w) in inv ==>
            && after[(p, w)].reservedQuantity == inv[(p, w)].reservedQuantity - Units(items, p)
            && after[(p, w)].quantity == inv[(p, w)].quantity - (if mode.DeductStock? then Units(items, p) else 0)
            && after[(p, w)].minThreshold == inv[(p, w)].minThreshold
            && after[(p, w)].maxThreshold == inv[(p, w)].maxThreshold)
  {
    if items != [] {
      var prefix := items[..|items| - 1];
      AdjustEffect(inv, w, prefix, mode);
      assert forall i :: 0 <= i < |prefix| ==> items[i] == prefix[i];
    }
  }

  /** Shipping moves stock out of the warehouse without changing what is available for new orders. */
  lemma DeductKeepsAvailable(inv: map<(Id, Id), Inventory>, w: Id, items: seq<OrderItem>, now: Time, p: Id)
    requires Adjust(inv, w, items, DeductStock(now)).Ok? && (p, w) in inv
    ensures (p, w) in Adjust(inv, w, items, DeductStock(now)).value
    ensures AvailableQuantity(Adjust(inv, w, items, DeductStock(now)).value[(p, w)]) == AvailableQuantity(inv[(p, w)])
  {
    AdjustEffect(inv, w, items, DeductStock(now));
  }

  /**
   * SHIPPED is not final, so a shipped order can still be cancelled, and the
   * cancellation releases the reservation that shipping already consumed: the
   * reservation ends up twice the order's units below where it started.
   */
  lemma CancelAfterShipReleasesTwice(inv: map<(Id, Id), Inventory>, w: Id, items: seq<OrderItem>, now: Time, p: Id)
    requires Adjust(inv, w, items, DeductStock(now)).Ok? && (p, w) in inv
    ensures ValidateStatusTransition(SHIPPED, CANCELLED).None?
    ensures var shipped := Adjust(inv, w, items, DeductStock(now)).value;
      && Adjust(shipped, w, items, ReleaseReservation).Ok?
      && (p, w) in Adjust(shipped, w, items, ReleaseReservation).value
      && Adjust(shipped, w, items, ReleaseReservation).value[(p, w)].reservedQuantity
           == inv[(p, w)].reservedQuantity - 2 * Units(items, p)
  {
    AdjustEffect(inv, w, items, DeductStock(now));
    var shipped := Adjust(inv, w, items, DeductStock(now)).value;
    AdjustEffect(shipped, w, items, ReleaseReservation);
  }

  /** `releaseInventory`, on a copy of the inventory table. */
  method ReleaseInventory(inv: map<(Id, Id), Inventory>, o: Order) returns (r: Result<map<(Id, Id), Inventory>>)
    ensures r == Adjust(inv, o.warehouse, o.items, ReleaseReservation)
  {
    var stock := inv;
    var i := 0;
    while i < |o.items|
      invariant 0 <= i <= |o.items|
      invariant Adjust(inv, o.warehouse, o.items[..i], ReleaseReservation) == Ok(stock)
    {
      var item := o.items[i];
      assert o.items[..i + 1][..i] == o.items[..i];
      var key := (item.product, o.warehouse);
      if key !in stock {
        AdjustFailureSticks(inv, o.warehouse, o.items, ReleaseReservation, i + 1);
        return Err(Business("Inventory not found"));
      }
      var row := stock[key];
      stock := stock[key := row.(reservedQuantity := row.reservedQuantity - item.quantity)];
      i := i + 1;
    }
    assert o.items[..|o.items|] == o.items;
    r := Ok(stock);
  }

  /** `deductInventory`, on a copy of the inventory table. */
  method DeductInventory(inv: map<(Id, Id), Inventory>, o: Order, now: Time) returns (r: Result<map<(Id, Id), Inventory>>)
    ensures r == Adjust(inv, o.warehouse, o.items, DeductStock(now))
  {
    var stock := inv;
    var i := 0;
    while i < |o.items|
      invariant 0 <= i <= |o.items|
      invariant Adjust(inv, o.warehouse, o.items[..i], DeductStock(now)) == Ok(stock)
    {
      var item := o.items[i];
      assert o.items[..i + 1][..i] == o.items[..i];
      var key := (item.product, o.warehouse);
      if key !in stock {
        AdjustFailureSticks(inv, o.warehouse, o.items, DeductStock(now), i + 1);
        return Err(Business("Inventory not found"));
      }
      var row := stock[key];
      stock := stock[key := row.(quantity := row.quantity - item.quantity,
                                 reservedQuantity := row.reservedQuantity - item.quantity,
                                 lastStockOut := Some(now))];
      i := i + 1;
    }
    assert o.items[..|o.items|] == o.items;
    r := Ok(stock);
  }

  /** The stock effect of moving an order to `st`. */
  function StatusEffect(inv: map<(Id, Id), Inventory>, o: Order, st: OrderStatus, now: Time): Result<map<(Id, Id), Inventory>>
  {
    if st == CANCELLED then Adjust(inv, o.warehouse, o.items, ReleaseReservation)
    else if st == SHIPPED then Adjust(inv, o.warehouse, o.items, DeductStock(now))
    else Ok(inv)
  }

  /** `updateOrderStatus`. */
  method UpdateOrderStatus(db: Database, orderId: Id, statusName: string, now: Time) returns (r: Result<Order>)
    requires db.Valid()
    modifies db`orders, db`inventory
    ensures db.Valid()
    ensures orderId !in old(db.orders) ==> r == Err(NotFound("Order not found"))
    ensures orderId in old(db.orders) && ParseOrderStatus(statusName).None? ==> r == Err(IllegalArgument(statusName))
    ensures orderId in old(db.orders) && ParseOrderStatus(statusName).Some?
            && ValidateStatusTransition(old(db.orders)[orderId].status, ParseOrderStatus(statusName).value).Some? ==>
      r == Err(ValidateStatusTransition(old(db.orders)[orderId].status, ParseOrderStatus(statusName).value).value)
    ensures orderId in old(db.orders) && ParseOrderStatus(statusName).Some?
            && ValidateStatusTransition(old(db.orders)[orderId].status, ParseOrderStatus(statusName).value).None?
            && StatusEffect(old(db.inventory), old(db.orders)[orderId], ParseOrderStatus(statusName).value, now).Err? ==>
      r == Err(StatusEffect(old(db.inventory), old(db.orders)[orderId], ParseOrderStatus(statusName).value, now).failure)
    ensures r.Err? ==> db.orders == old(db.orders) && db.inventory == old(db.inventory)
    ensures r.Ok? <==>
      && orderId in old(db.orders)
      && ParseOrderStatus(statusName).Some?
      && ValidateStatusTransition(old(db.orders)[orderId].status, ParseOrderStatus(statusName).value).None?
      && StatusEffect(old(db.inventory), old(db.orders)[orderId], ParseOrderStatus(statusName).value, now).Ok?
    ensures r.Ok? ==>
      var st := ParseOrderStatus(statusName).value;
      && r.value == old(db.orders)[orderId].(status := st)
      && db.orders == old(db.orders)[orderId := r.value]
      && db.inventory == StatusEffect(old(db.inventory), old(db.orders)[orderId], st, now).value
  {
    if orderId !in db.orders {
      return Err(NotFound("Order not found"));
    }
    var order := db.orders[orderId];
    var parsed := ParseOrderStatus(statusName);
    if parsed.None? {
      return Err(IllegalArgument(statusName));
    }
    var newStatus := parsed.value;
    var invalid := ValidateStatusTransition(order.status, newStatus);
    if invalid.Some? {
      return Err(invalid.value);
    }
    var updated := order.(status := newStatus);
    var stock := db.inventory;
    if newStatus == CANCELLED {
      var released := ReleaseInventory(db.inventory, order);
      if released.Err? {
        return Err(released.failure);
      }
      stock := released.value;
    } else if newStatus == SHIPPED {
      var deducted := DeductInventory(db.inventory, order, now);
      if deducted.Err? {
        return Err(deducted.failure);
      }
      stock := deducted.value;
    }
    db.orders := db.orders[orderId := updated];
    db.inventory := stock;
    r := Ok(updated);
  }
}
