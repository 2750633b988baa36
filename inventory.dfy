/**
 * An inventory record: the stock of one product in one warehouse,
 * with the derived quantities and alerts the entity computes.
 */
module InventoryEntity {
  import opened Common

  datatype Inventory = Inventory(
    quantity: int,
    reservedQuantity: int,
    minThreshold: int,
    maxThreshold: int,
    location: Option<string>,
    batchNumber: Option<string>,
    expiryDate: Option<Time>,
    lastStockIn: Option<Time>,
    lastStockOut: Option<Time>)

  /** The record the stock-in and transfer paths build for a (product, warehouse) pair that has none. */
  function NewRecord(): (r: Inventory)
    ensures r.quantity == 0 && r.reservedQuantity == 0
    ensures r.minThreshold == 10 && r.maxThreshold == 1000
    ensures r.location.None? && r.batchNumber.None? && r.expiryDate.None?
    ensures r.lastStockIn.None? && r.lastStockOut.None?
  {
    Inventory(0, 0, 10, 1000, None, None, None, None, None)
  }

  /** Stock that is neither reserved by an order nor shipped. */
  function AvailableQuantity(inv: Inventory): int
  {
    inv.quantity - inv.reservedQuantity
  }

  /** Low-stock alert: on the physical quantity, strictly below the minimum. */
  predicate IsLowStock(inv: Inventory)
  {
    inv.quantity < inv.minThreshold
  }

  predicate IsOverStock(inv: Inventory)
  {
    inv.quantity > inv.maxThreshold
  }

  /** `now` is the clock reading the entity takes. */
  predicate IsExpired(inv: Inventory, now: Time)
  {
    inv.expiryDate.Some? && inv.expiryDate.value < now
  }

  predicate IsExpiringSoon(inv: Inventory, now: Time, days: int)
  {
    inv.expiryDate.Some? && inv.expiryDate.value < now + days * SecondsPerDay
  }

  /** Reserving or releasing stock moves the available quantity one for one. */
  lemma AvailableAfterReservation(inv: Inventory, q: int)
    ensures AvailableQuantity(inv.(reservedQuantity := inv.reservedQuantity + q)) == AvailableQuantity(inv) - q
    ensures AvailableQuantity(inv.(quantity := inv.quantity + q)) == AvailableQuantity(inv) + q
  {
  }

  /** The low-stock alert ignores reservations: it looks at quantity only. */
  lemma LowStockIgnoresReservations(inv: Inventory, reserved: int)
    ensures IsLowStock(inv.(reservedQuantity := reserved)) == IsLowStock(inv)
    ensures IsLowStock(inv) <==> inv.quantity < inv.minThreshold
  {
  }

  /** With consistent thresholds a record is never both low and over stock. */
  lemma NeverLowAndOver(inv: Inventory)
    requires inv.minThreshold <= inv.maxThreshold
    ensures !(IsLowStock(inv) && IsOverStock(inv))
  {
  }

  /** Anything already expired is also expiring within any non-negative horizon; no date, no alert. */
  lemma ExpiredIsExpiringSoon(inv: Inventory, now: Time, days: int)
    requires days >= 0
    ensures IsExpired(inv, now) ==> IsExpiringSoon(inv, now, days)
    ensures inv.expiryDate.None? ==> !IsExpired(inv, now) && !IsExpiringSoon(inv, now, days)
  {
  }
}
