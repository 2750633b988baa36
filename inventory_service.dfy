/**
 * Stock movements: receiving goods, issuing goods and moving goods between
 * warehouses, each logged in the transaction ledger with the quantity before
 * and after. Every operation is one transaction: on failure nothing changes.
 */
module InventoryService {
  import opened Common
  import opened InventoryEntity
  import opened Store

  /** A stock-in or stock-out request. */
  datatype StockRequest = StockRequest(
    productId: Id,
    warehouseId: Id,
    quantity: int,
    location: Option<string>,
    batchNumber: Option<string>,
    notes: Option<string>,
    referenceNumber: Option<string>)

  datatype TransferRequest = TransferRequest(
    productId: Id,
    fromWarehouseId: Id,
    toWarehouseId: Id,
    quantity: int,
    notes: Option<string>)

  /** The stored record for a pair, or the default record a stock-in would create. */
  function RecordOrNew(inv: map<(Id, Id), Inventory>, key: (Id, Id)): Inventory
  {
    if key in inv then inv[key] else NewRecord()
  }

  /** The record after receiving `req.quantity` units at time `now`. */
  function StockedIn(row: Inventory, req: StockRequest, now: Time): Inventory
  {
    row.(quantity := row.quantity + req.quantity,
         lastStockIn := Some(now),
         location := if req.location.Some? then req.location else row.location,
         batchNumber := if req.batchNumber.Some? then req.batchNumber else row.batchNumber)
  }

  /** The record after issuing `q` units at time `now`. */
  function StockedOut(row: Inventory, q: int, now: Time): Inventory
  {
    row.(quantity := row.quantity - q, lastStockOut := Some(now))
  }

  /**
   * Receiving raises quantity by exactly the amount and touches no reservation;
   * optional location and batch number overwrite only when supplied; issuing the
   * same amount afterwards restores the quantity.
   */
  lemma StockInEffect(row: Inventory, req: StockRequest, now: Time)
    ensures StockedIn(row, req, now).quantity == row.quantity + req.quantity
    ensures StockedIn(row, req, now).reservedQuantity == row.reservedQuantity
    ensures AvailableQuantity(StockedIn(row, req, now)) == AvailableQuantity(row) + req.quantity
    ensures req.location.None? ==> StockedIn(row, req, now).location == row.location
    ensures req.location.Some? ==> StockedIn(row, req, now).location == req.location
    ensures req.batchNumber.None? ==> StockedIn(row, req, now).batchNumber == row.batchNumber
    ensures req.batchNumber.Some? ==> StockedIn(row, req, now).batchNumber == req.batchNumber
    ensures StockedOut(StockedIn(row, req, now), req.quantity, now).quantity == row.quantity
  {
  }

  /** An issue that passed the availability check leaves the available quantity non-negative. */
  lemma StockOutKeepsAvailable(row: Inventory, q: int, now: Time)
    requires AvailableQuantity(row) >= q
    ensures AvailableQuantity(StockedOut(row, q, now)) == AvailableQuantity(row) - q >= 0
    ensures StockedOut(row, q, now).reservedQuantity == row.reservedQuantity
  {
  }

  /** The shape of every ledger row these operations write. */
  predicate LedgerEntryBalanced(t: InventoryTransaction)
  {
    match t.kind
    case STOCK_IN => t.afterQuantity == t.beforeQuantity + t.quantity
    case STOCK_OUT => t.afterQuantity == t.beforeQuantity - t.quantity
    case TRANSFER =>
      || (t.referenceNumber == Some("TRANSFER-OUT") && t.afterQuantity == t.beforeQuantity - t.quantity)
      || (t.referenceNumber == Some("TRANSFER-IN") && t.afterQuantity == t.beforeQuantity + t.quantity)
    case _ => false
  }

  predicate LedgerBalanced(ledger: seq<InventoryTransaction>)
  {
    forall i :: 0 <= i < |ledger| ==> LedgerEntryBalanced(ledger[i])
  }

  /** `recordTransaction`: append one ledger row. */
  method RecordTransaction(db: Database, key: (Id, Id), kind: TransactionType, quantity: int,
                           before: int, after: int, reference: Option<string>, notes: Option<string>, now: Time)
    modifies db`transactions
    ensures db.transactions == old(db.transactions)
      + [InventoryTransaction(key, kind, quantity, before, after, reference, notes, now)]
  {
    db.transactions := db.transactions
      + [InventoryTransaction(key, kind, quantity, before, after, reference, notes, now)];
  }

  /** `stockIn`. */
  method StockIn(db: Database, req: StockRequest, now: Time) returns (r: Result<Inventory>)
    requires db.Valid()
    modifies db`inventory, db`transactions
    ensures db.Valid()
    ensures r.Err? <==> req.productId !in db.products || req.warehouseId !in db.warehouses
    ensures req.productId !in db.products ==> r == Err(NotFound("Product not found"))
    ensures req.productId in db.products && req.warehouseId !in db.warehouses ==>
      r == Err(NotFound("Warehouse not found"))
    ensures r.Err? ==> db.inventory == old(db.inventory) && db.transactions == old(db.transactions)
    ensures r.Ok? ==>
      var key := (req.productId, req.warehouseId);
      var before := RecordOrNew(old(db.inventory), key);
      && r.value == StockedIn(before, req, now)
      && db.inventory == old(db.inventory)[key := r.value]
      && db.transactions == old(db.transactions)
           + [InventoryTransaction(key, STOCK_IN, req.quantity, before.quantity, r.value.quantity,
                                   req.referenceNumber, req.notes, now)]
    ensures LedgerBalanced(old(db.transactions)) ==> LedgerBalanced(db.transactions)
  {
    if req.productId !in db.products {
      return Err(NotFound("Product not found"));
    }
    if req.warehouseId !in db.warehouses {
      return Err(NotFound("Warehouse not found"));
    }
    var key := (req.productId, req.warehouseId);
    var row := RecordOrNew(db.inventory, key);
    var before := row.quantity;
    row := StockedIn(row, req, now);
    db.inventory := db.inventory[key := row];
    RecordTransaction(db, key, STOCK_IN, req.quantity, before, row.quantity, req.referenceNumber, req.notes, now);
    r := Ok(row);
  }

  /** `stockOut`. */
  method StockOut(db: Database, req: StockRequest, now: Time) returns (r: Result<Inventory>)
    requires db.Valid()
    modifies db`inventory, db`transactions
    ensures db.Valid()
    ensures r.Err? <==>
      || req.productId !in db.products
      || req.warehouseId !in db.warehouses
      || (req.productId, req.warehouseId) !in old(db.inventory)
      || AvailableQuantity(old(db.inventory)[(req.productId, req.warehouseId)]) < req.quantity
    ensures req.productId !in db.products ==> r == Err(NotFound("Product not found"))
    ensures req.productId in db.products && req.warehouseId !in db.warehouses
            ==> r == Err(NotFound("Warehouse not found"))
    ensures (req.productId in db.products && req.warehouseId in db.warehouses
             && (req.productId, req.warehouseId) !in old(db.inventory))
            ==> r == Err(Business("Inventory not found"))
    ensures (req.productId in db.products && req.warehouseId in db.warehouses
             && (req.productId, req.warehouseId) in old(db.inventory)
             && AvailableQuantity(old(db.inventory)[(req.productId, req.warehouseId)]) < req.quantity)
            ==> r == Err(Business("Insufficient stock"))
    ensures r.Err? ==> db.inventory == old(db.inventory) && db.transactions == old(db.transactions)
    ensures r.Ok? ==>
      var key := (req.productId, req.warehouseId);
      var before := old(db.inventory)[key];
      && r.value == StockedOut(before, req.quantity, now)
      && AvailableQuantity(r.value) >= 0
      && db.inventory == old(db.inventory)[key := r.value]
      && db.transactions == old(db.transactions)
           + [InventoryTransaction(key, STOCK_OUT, req.quantity, before.quantity, r.value.quantity,
                                   req.referenceNumber, req.notes, now)]
    ensures LedgerBalanced(old(db.transactions)) ==> LedgerBalanced(db.transactions)
  {
    if req.productId !in db.products {
      return Err(NotFound("Product not found"));
    }
    if req.warehouseId !in db.warehouses {
      return Err(NotFound("Warehouse not found"));
    }
    var key := (req.productId, req.warehouseId);
    if key !in db.inventory {
      return Err(Business("Inventory not found"));
    }
    var row := db.inventory[key];
    if AvailableQuantity(row) < req.quantity {
      return Err(Business("Insufficient stock"));
    }
    var before := row.quantity;
    row := StockedOut(row, req.quantity, now);
    db.inventory := db.inventory[key := row];
    RecordTransaction(db, key, STOCK_OUT, req.quantity, before, row.quantity, req.referenceNumber, req.notes, now);
    r := Ok(row);
  }

  /**
   * The inventory after a transfer: the source is read and lowered first, then
   * the destination is read from the updated table (the same record when both
   * warehouses are the same) and raised.
   */
  function Transferred(inv: map<(Id, Id), Inventory>, p: Id, from: Id, to: Id, q: int): map<(Id, Id), Inventory>
    requires (p, from) in inv
  {
    var inv1 := inv[(p, from) := inv[(p, from)].(quantity := inv[(p, from)].quantity - q)];
    var dest := RecordOrNew(inv1, (p, to));
    inv1[(p, to) := dest.(quantity := dest.quantity + q)]
  }

  /**
   * A transfer conserves the product's stock over the two warehouses, changes
   * no reservation and no other record, and between a warehouse and itself
   * leaves the record as it was.
   */
  lemma TransferConserves(inv: map<(Id, Id), Inventory>, p: Id, from: Id, to: Id, q: int)
    requires (p, from) in inv
    ensures var after := Transferred(inv, p, from, to, q);
      && after.Keys == inv.Keys + {(p, to)}
      && (from != to ==>
            after[(p, from)].quantity + after[(p, to)].quantity
              == inv[(p, from)].quantity + RecordOrNew(inv, (p, to)).quantity
            && after[(p, from)].quantity == inv[(p, from)].quantity - q
            && after[(p, to)].quantity == RecordOrNew(inv, (p, to)).quantity + q)
      && (from == to ==> after[(p, from)] == inv[(p, from)])
      && after[(p, from)].reservedQuantity == inv[(p, from)].reservedQuantity
      && after[(p, to)].reservedQuantity == RecordOrNew(inv, (p, to)).reservedQuantity
      && (forall k :: k in inv && k != (p, from) && k != (p, to) ==> after[k] == inv[k])
  {
  }

  /** `transferStock`. */
  method TransferStock(db: Database, req: TransferRequest, now: Time) returns (r: Result<()>)
    requires db.Valid()
    modifies db`inventory, db`transactions
    ensures db.Valid()
    ensures r.Err? <==>
      || req.productId !in db.products
      || req.fromWarehouseId !in db.warehouses
      || req.toWarehouseId !in db.warehouses
      || (req.productId, req.fromWarehouseId) !in old(db.inventory)
      || AvailableQuantity(old(db.inventory)[(req.productId, req.fromWarehouseId)]) < req.quantity
    ensures req.productId !in db.products ==> r == Err(NotFound("Product not found"))
    ensures req.productId in db.products && req.fromWarehouseId !in db.warehouses
            ==> r == Err(NotFound("From warehouse not found"))
    ensures req.productId in db.products && req.fromWarehouseId in db.warehouses
            && req.toWarehouseId !in db.warehouses
            ==> r == Err(NotFound("To warehouse not found"))
    ensures (req.productId in db.products && req.fromWarehouseId in db.warehouses
             && req.toWarehouseId in db.warehouses
             && (req.productId, req.fromWarehouseId) !in old(db.inventory))
            ==> r == Err(Business("Source inventory not found"))
    ensures (req.productId in db.products && req.fromWarehouseId in db.warehouses
             && req.toWarehouseId in db.warehouses
             && (req.productId, req.fromWarehouseId) in old(db.inventory)
             && AvailableQuantity(old(db.inventory)[(req.productId, req.fromWarehouseId)]) < req.quantity)
            ==> r == Err(Business("Insufficient stock in source warehouse"))
    ensures r.Err? ==> db.inventory == old(db.inventory) && db.transactions == old(db.transactions)
    ensures r.Ok? ==>
      var p, from, to, q := req.productId, req.fromWarehouseId, req.toWarehouseId, req.quantity;
      var fromBefore := old(db.inventory)[(p, from)].quantity;
      var toBefore := RecordOrNew(old(db.inventory)[(p, from) := old(db.inventory)[(p, from)].(quantity := fromBefore - q)], (p, to)).quantity;
      && db.inventory == Transferred(old(db.inventory), p, from, to, q)
      && db.transactions == old(db.transactions)
           + [InventoryTransaction((p, from), TRANSFER, q, fromBefore, fromBefore - q, Some("TRANSFER-OUT"), req.notes, now),
              InventoryTransaction((p, to), TRANSFER, q, toBefore, toBefore + q, Some("TRANSFER-IN"), req.notes, now)]
    ensures LedgerBalanced(old(db.transactions)) ==> LedgerBalanced(db.transactions)
  {
    if req.productId !in db.products {
      return Err(NotFound("Product not found"));
    }
    if req.fromWarehouseId !in db.warehouses {
      return Err(NotFound("From warehouse not found"));
    }
    if req.toWarehouseId !in db.warehouses {
      return Err(NotFound("To warehouse not found"));
    }
    var fromKey := (req.productId, req.fromWarehouseId);
    var toKey := (req.productId, req.toWarehouseId);
    if fromKey !in db.inventory {
      return Err(Business("Source inventory not found"));
    }
    var source := db.inventory[fromKey];
    if AvailableQuantity(source) < req.quantity {
      return Err(Business("Insufficient stock in source warehouse"));
    }
    var fromBefore := source.quantity;
    source := source.(quantity := source.quantity - req.quantity);
    db.inventory := db.inventory[fromKey := source];
    RecordTransaction(db, fromKey, TRANSFER, req.quantity, fromBefore, source.quantity,
                      Some("TRANSFER-OUT"), req.notes, now);
    var dest := RecordOrNew(db.inventory, toKey);
    var toBefore := dest.quantity;
    dest := dest.(quantity := dest.quantity + req.quantity);
    db.inventory := db.inventory[toKey := dest];
    RecordTransaction(db, toKey, TRANSFER, req.quantity, toBefore, dest.quantity,
                      Some("TRANSFER-IN"), req.notes, now);
    r := Ok(());
  }
}
