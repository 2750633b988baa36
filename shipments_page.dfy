/**
 * The shared shipments page: the search filter over tracking and order
 * numbers, and the status colours.
 */
module ShipmentsPage {
  import opened Lists
  import opened Text

  datatype ShipmentRow = ShipmentRow(
    id: int, trackingNumber: string, orderNumber: string, driver: string,
    origin: string, destination: string, status: string, estimatedDelivery: string)

  /** `getStatusColor`: `colors[status] || 'default'`. */
  function StatusColor(status: string): string
  {
    match status
    case "PENDING" => "warning"
    case "IN_TRANSIT" => "info"
    case "DELIVERED" => "success"
    case "CANCELLED" => "error"
    case _ => "default"
  }

  /** The `shipments.filter` callback. */
  function Matches(keyword: string): ShipmentRow -> bool
  {
    (s: ShipmentRow) => ContainsIgnoreCase(s.trackingNumber, keyword) || ContainsIgnoreCase(s.orderNumber, keyword)
  }

  /** `filteredShipments`. */
  function FilteredShipments(shipments: seq<ShipmentRow>, keyword: string): seq<ShipmentRow>
  {
    Filter(shipments, Matches(keyword))
  }

  /**
   * A shipment is listed exactly when its tracking number or order number
   * contains the keyword ignoring case, in the list's order; an empty
   * keyword lists everything.
   */
  lemma FilteredShipmentsExactly(shipments: seq<ShipmentRow>, keyword: string)
    ensures forall s :: s in FilteredShipments(shipments, keyword) <==>
      s in shipments && (ContainsIgnoreCase(s.trackingNumber, keyword) || ContainsIgnoreCase(s.orderNumber, keyword))
    ensures IsSubsequence(FilteredShipments(shipments, keyword), shipments)
    ensures FilteredShipments(shipments, "") == shipments
  {
    FilterExactly(shipments, Matches(keyword));
    forall i | 0 <= i < |shipments|
      ensures Matches("")(shipments[i])
    {
      EmptyKeywordMatches(shipments[i].trackingNumber);
    }
    FilterAll(shipments, Matches(""));
  }

  /**
   * The four listed statuses have distinct colours; every other value,
   * including the backend's PICKED_UP and OUT_FOR_DELIVERY, shows 'default'.
   */
  lemma StatusColorRules(status: string, other: string)
    ensures StatusColor(status) == "default" <==> status !in {"PENDING", "IN_TRANSIT", "DELIVERED", "CANCELLED"}
    ensures StatusColor(status) != "default" && StatusColor(status) == StatusColor(other) ==> status == other
    ensures StatusColor("PICKED_UP") == "default" && StatusColor("OUT_FOR_DELIVERY") == "default"
  {
  }
}
