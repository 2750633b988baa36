/** A shipment: its status enumeration and the delay it reports. */
module ShipmentEntity {
  import opened Common

  datatype ShipmentStatus =
    | PENDING | PICKED_UP | IN_TRANSIT | OUT_FOR_DELIVERY
    | DELIVERED | FAILED | RETURNED | CANCELLED

  function ShipmentStatusName(st: ShipmentStatus): string
  {
    match st
    case PENDING => "PENDING"
    case PICKED_UP => "PICKED_UP"
    case IN_TRANSIT => "IN_TRANSIT"
    case OUT_FOR_DELIVERY => "OUT_FOR_DELIVERY"
    case DELIVERED => "DELIVERED"
    case FAILED => "FAILED"
    case RETURNED => "RETURNED"
    case CANCELLED => "CANCELLED"
  }

  /** `ShipmentStatus.valueOf`. */
  function ParseShipmentStatus(s: string): Option<ShipmentStatus>
  {
    if s == "PENDING" then Some(PENDING)
    else if s == "PICKED_UP" then Some(PICKED_UP)
    else if s == "IN_TRANSIT" then Some(IN_TRANSIT)
    else if s == "OUT_FOR_DELIVERY" then Some(OUT_FOR_DELIVERY)
    else if s == "DELIVERED" then Some(DELIVERED)
    else if s == "FAILED" then Some(FAILED)
    else if s == "RETURNED" then Some(RETURNED)
    else if s == "CANCELLED" then Some(CANCELLED)
    else None
  }

  lemma ParseShipmentStatusRoundTrip(st: ShipmentStatus, s: string)
    ensures ParseShipmentStatus(ShipmentStatusName(st)) == Some(st)
    ensures ParseShipmentStatus(s).Some? ==> ShipmentStatusName(ParseShipmentStatus(s).value) == s
  {
  }

  datatype Shipment = Shipment(
    trackingNumber: string,
    order: Id,
    vehicle: Id,
    driver: Id,
    status: ShipmentStatus,
    currentLatitude: Option<real>,
    currentLongitude: Option<real>,
    currentSpeed: Option<real>,
    pickupTime: Option<Time>,
    estimatedDeliveryTime: Option<Time>,
    actualDeliveryTime: Option<Time>,
    deliveryNotes: Option<string>,
    createdAt: Time)

  /** `isDelayed` at clock reading `now`. */
  predicate IsDelayed(s: Shipment, now: Time)
  {
    s.estimatedDeliveryTime.Some? && now > s.estimatedDeliveryTime.value && s.status != DELIVERED
  }

  /**
   * `getDelayMinutes`: 0 unless delayed, otherwise the whole minutes elapsed
   * since the estimate (`Duration.toMinutes` truncates; the span is positive).
   */
  function DelayMinutes(s: Shipment, now: Time): (r: int)
    ensures !IsDelayed(s, now) ==> r == 0
    ensures IsDelayed(s, now) ==>
      r >= 0 && r * SecondsPerMinute <= now - s.estimatedDeliveryTime.value < (r + 1) * SecondsPerMinute
  {
    if !IsDelayed(s, now) then 0
    else (now - s.estimatedDeliveryTime.value) / SecondsPerMinute
  }

  /** Only DELIVERED is exempt: a cancelled shipment past its estimate counts as delayed. */
  lemma CancelledCanBeDelayed(s: Shipment, now: Time)
    requires s.status == CANCELLED && s.estimatedDeliveryTime.Some?
    requires now > s.estimatedDeliveryTime.value
    ensures IsDelayed(s, now)
    ensures DelayMinutes(s, now) >= 0
  {
  }

  /** Without an estimate a shipment is never delayed. */
  lemma NoEstimateNoDelay(s: Shipment, now: Time)
    requires s.estimatedDeliveryTime.None?
    ensures !IsDelayed(s, now) && DelayMinutes(s, now) == 0
  {
  }
}
