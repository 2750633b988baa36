/**
 * The customer's "My Orders" page: the search filter, where a missing
 * order number or status never matches, the status colours, and which
 * orders offer the cancel action.
 */
module MyOrders {
  import opened Common
  import opened Lists
  import opened Text

  datatype OrderRow = OrderRow(id: int, orderNumber: Option<string>, status: Option<string>)

  /** `field?.toLowerCase().includes(keyword.toLowerCase())`: `undefined` is falsy. */
  predicate FieldMatches(field: Option<string>, keyword: string)
  {
    field.Some? && ContainsIgnoreCase(field.value, keyword)
  }

  /** The `orders.filter` callback. */
  function Matches(keyword: string): OrderRow -> bool
  {
    (o: OrderRow) => FieldMatches(o.orderNumber, keyword) || FieldMatches(o.status, keyword)
  }

  /** `filteredOrders`. */
  function FilteredOrders(orders: seq<OrderRow>, keyword: string): seq<OrderRow>
  {
    Filter(orders, Matches(keyword))
  }

  /** `getStatusColor`: `colors[status] || 'default'`. */
  function StatusColor(status: Option<string>): string
  {
    if status == Some("PENDING") then "warning"
    else if status == Some("PROCESSING") then "info"
    else if status == Some("COMPLETED") then "success"
    else if status == Some("CANCELLED") then "error"
    else if status == Some("SHIPPED") then "primary"
    else "default"
  }

  /** The row shows the cancel button. */
  predicate CancelOffered(o: OrderRow)
  {
    o.status == Some("PENDING")
  }

  /**
   * An order is listed exactly when its order number or its status is
   * present and contains the keyword ignoring case; the list keeps the
   * loaded order.
   */
  lemma FilteredOrdersExactly(orders: seq<OrderRow>, keyword: string)
    ensures forall o :: o in FilteredOrders(orders, keyword) <==>
      o in orders
      && ((o.orderNumber.Some? && ContainsIgnoreCase(o.orderNumber.value, keyword))
          || (o.status.Some? && ContainsIgnoreCase(o.status.value, keyword)))
    ensures IsSubsequence(FilteredOrders(orders, keyword), orders)
  {
    FilterExactly(orders, Matches(keyword));
  }

  /** An empty keyword keeps exactly the orders that have an order number or a status. */
  lemma EmptyKeywordKeepsIdentified(orders: seq<OrderRow>)
    ensures forall o :: o in FilteredOrders(orders, "") <==> o in orders && (o.orderNumber.Some? || o.status.Some?)
  {
    FilterExactly(orders, Matches(""));
    forall o: OrderRow
      ensures Matches("")(o) <==> o.orderNumber.Some? || o.status.Some?
    {
      if o.orderNumber.Some? {
        EmptyKeywordMatches(o.orderNumber.value);
      }
      if o.status.Some? {
        EmptyKeywordMatches(o.status.value);
      }
    }
  }

  /**
   * Only PENDING orders can be cancelled. The five listed statuses have
   * distinct colours and every other value, including the backend's
   * CONFIRMED and DELIVERED, shows 'default'.
   */
  lemma StatusRules(o: OrderRow, s: Option<string>, t: Option<string>)
    ensures CancelOffered(o) <==> o.status == Some("PENDING")
    ensures StatusColor(s) == "default" <==>
      s !in {Some("PENDING"), Some("PROCESSING"), Some("COMPLETED"), Some("CANCELLED"), Some("SHIPPED")}
    ensures StatusColor(s) != "default" && StatusColor(s) == StatusColor(t) ==> s == t
    ensures StatusColor(Some("CONFIRMED")) == "default" && StatusColor(Some("DELIVERED")) == "default"
  {
  }
}
