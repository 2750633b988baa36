/** An order line and the subtotal its persistence callbacks recompute. */
module OrderItemEntity {
  import opened Common

  /** Prices are BigDecimal amounts with scale 2, held as whole minor units. */
  datatype OrderItem = OrderItem(
    product: Id,
    quantity: int,
    price: int,
    discount: int,
    subtotal: int,
    notes: Option<string>)

  /** The stored subtotal agrees with the other fields of the line. */
  predicate SubtotalConsistent(item: OrderItem)
  {
    item.subtotal == item.price * item.quantity - item.discount
  }

  /**
   * `calculateSubtotal`, run on persist and on every update: only the subtotal
   * is written, and afterwards it agrees with price, quantity and discount.
   */
  function CalculateSubtotal(item: OrderItem): (r: OrderItem)
    ensures SubtotalConsistent(r)
    ensures r.(subtotal := item.subtotal) == item
  {
    item.(subtotal := item.price * item.quantity - item.discount)
  }

  /** Recomputing a consistent line changes nothing, so saving twice is the same as saving once. */
  lemma CalculateSubtotalIdempotent(item: OrderItem)
    ensures CalculateSubtotal(CalculateSubtotal(item)) == CalculateSubtotal(item)
    ensures SubtotalConsistent(item) ==> CalculateSubtotal(item) == item
  {
  }

  /** Without a discount the subtotal is price times quantity. */
  lemma UndiscountedSubtotal(item: OrderItem)
    requires item.discount == 0
    ensures CalculateSubtotal(item).subtotal == item.price * item.quantity
  {
  }

  /** No lower bound is enforced: a discount above price times quantity gives a negative subtotal. */
  lemma SubtotalCanBeNegative()
    ensures CalculateSubtotal(OrderItem(1, 1, 100, 500, 0, None)).subtotal == -400
  {
  }
}
