/** An order: its status enumeration, its money fields and the totals it recomputes. */
module OrderEntity {
  import opened Common
  import opened OrderItemEntity
  import opened Grouping

  datatype OrderStatus =
    | PENDING | CONFIRMED | PROCESSING | PACKED | READY_TO_SHIP
    | SHIPPED | DELIVERED | CANCELLED | RETURNED

  /** The constant's name, as stored in the `status` column and sent to clients. */
  function OrderStatusName(st: OrderStatus): string
  {
    match st
    case PENDING => "PENDING"
    case CONFIRMED => "CONFIRMED"
    case PROCESSING => "PROCESSING"
    case PACKED => "PACKED"
    case READY_TO_SHIP => "READY_TO_SHIP"
    case SHIPPED => "SHIPPED"
    case DELIVERED => "DELIVERED"
    case CANCELLED => "CANCELLED"
    case RETURNED => "RETURNED"
  }

  /** `OrderStatus.valueOf`: an exact, case-sensitive constant name, or nothing. */
  function ParseOrderStatus(s: string): Option<OrderStatus>
  {
    if s == "PENDING" then Some(PENDING)
    else if s == "CONFIRMED" then Some(CONFIRMED)
    else if s == "PROCESSING" then Some(PROCESSING)
    else if s == "PACKED" then Some(PACKED)
    else if s == "READY_TO_SHIP" then Some(READY_TO_SHIP)
    else if s == "SHIPPED" then Some(SHIPPED)
    else if s == "DELIVERED" then Some(DELIVERED)
    else if s == "CANCELLED" then Some(CANCELLED)
    else if s == "RETURNED" then Some(RETURNED)
    else None
  }

  /** `valueOf` and `name` are inverse: every constant parses back, and only names parse. */
  lemma ParseOrderStatusRoundTrip(st: OrderStatus, s: string)
    ensures ParseOrderStatus(OrderStatusName(st)) == Some(st)
    ensures ParseOrderStatus(s).Some? ==> OrderStatusName(ParseOrderStatus(s).value) == s
  {
  }

  /** Contact and delivery details copied verbatim from the request. */
  datatype ShippingContact = ShippingContact(
    customerName: Option<string>,
    customerEmail: Option<string>,
    customerPhone: Option<string>,
    shippingAddress: Option<string>,
    shippingCity: Option<string>,
    shippingDistrict: Option<string>,
    shippingLatitude: Option<real>,
    shippingLongitude: Option<real>)

  datatype Order = Order(
    orderNumber: string,
    warehouse: Id,
    customer: Option<Id>,
    status: OrderStatus,
    contact: ShippingContact,
    subtotal: int,
    shippingFee: int,
    discount: int,
    tax: int,
    totalAmount: int,
    paymentMethod: Option<string>,
    paymentStatus: string,
    notes: Option<string>,
    orderDate: Time,
    expectedDeliveryDate: Option<Time>,
    actualDeliveryDate: Option<Time>,
    items: seq<OrderItem>)

  function ItemSubtotal(item: OrderItem): int
  {
    item.subtotal
  }

  function ItemQuantity(item: OrderItem): int
  {
    item.quantity
  }

  /** The order's money fields agree with its lines. */
  predicate TotalsConsistent(o: Order)
  {
    && o.subtotal == SumOf(o.items, ItemSubtotal)
    && o.totalAmount == o.subtotal + o.shippingFee - o.discount + o.tax
  }

  /**
   * `calculateTotalAmount`: writes subtotal and totalAmount, and nothing else,
   * so that afterwards they agree with the lines and the other money fields.
   */
  function CalculateTotalAmount(o: Order): (r: Order)
    ensures TotalsConsistent(r)
    ensures r.(subtotal := o.subtotal, totalAmount := o.totalAmount) == o
  {
    var subtotal := SumOf(o.items, ItemSubtotal);
    o.(subtotal := subtotal, totalAmount := subtotal + o.shippingFee - o.discount + o.tax)
  }

  /** Recomputing the totals twice gives the same order as once. */
  lemma CalculateTotalAmountIdempotent(o: Order)
    ensures CalculateTotalAmount(CalculateTotalAmount(o)) == CalculateTotalAmount(o)
    ensures TotalsConsistent(o) ==> CalculateTotalAmount(o) == o
  {
  }

  /** `getTotalItems`: the number of units over all lines. */
  function TotalItems(o: Order): int
  {
    SumOf(o.items, ItemQuantity)
  }

  /** An order without lines has no units; lines of at least one unit each give at least one unit per line. */
  lemma {:induction false} TotalItemsBounds(items: seq<OrderItem>)
    ensures items == [] ==> SumOf(items, ItemQuantity) == 0
    ensures (forall i :: 0 <= i < |items| ==> items[i].quantity >= 1) ==> SumOf(items, ItemQuantity) >= |items|
  {
    if items != [] {
      TotalItemsBounds(items[..|items| - 1]);
    }
  }
}
