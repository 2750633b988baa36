/**
 * Dispatching an order with a vehicle and a driver, live location updates,
 * status changes, and the list of shipments still on the road.
 */
module ShipmentService {
  import opened Common
  import O = OrderEntity
  import opened ShipmentEntity
  import opened Store

  datatype CreateShipmentRequest = CreateShipmentRequest(
    orderId: Id,
    vehicleId: Id,
    driverId: Id,
    pickupTime: Option<Time>,
    estimatedDeliveryTime: Option<Time>,
    notes: Option<string>)

  datatype LocationUpdate = LocationUpdate(
    latitude: Option<real>,
    longitude: Option<real>,
    speed: Option<real>,
    location: Option<string>,
    notes: Option<string>)

  /** `order.getShipment() != null`: some stored shipment belongs to the order. */
  predicate HasShipment(shipments: map<Id, Shipment>, orderId: Id)
  {
    exists id | id in shipments :: shipments[id].order == orderId
  }

  /** The shipment `createShipment` saves; `trackingNumber` stands for the generated "TRK-..." value. */
  function NewShipment(req: CreateShipmentRequest, trackingNumber: string, now: Time): Shipment
  {
    Shipment(trackingNumber, req.orderId, req.vehicleId, req.driverId, PENDING,
             None, None, None,
             req.pickupTime,
             if req.estimatedDeliveryTime.Some? then req.estimatedDeliveryTime else Some(now + 4 * SecondsPerHour),
             None, req.notes, now)
  }

  /** A new shipment is PENDING, not delivered, and due four hours after creation unless an estimate is given. */
  lemma NewShipmentDefaults(req: CreateShipmentRequest, trackingNumber: string, now: Time)
    ensures NewShipment(req, trackingNumber, now).status == PENDING
    ensures NewShipment(req, trackingNumber, now).actualDeliveryTime.None?
    ensures req.estimatedDeliveryTime.None? ==>
      NewShipment(req, trackingNumber, now).estimatedDeliveryTime == Some(now + 14400)
    ensures req.estimatedDeliveryTime.Some? ==>
      NewShipment(req, trackingNumber, now).estimatedDeliveryTime == req.estimatedDeliveryTime
    ensures req.estimatedDeliveryTime.None? ==> !IsDelayed(NewShipment(req, trackingNumber, now), now)
  {
  }

  /** `createShipment`. It marks the order SHIPPED but, unlike the order workflow, deducts no stock. */
  method CreateShipment(db: Database, req: CreateShipmentRequest, trackingNumber: string, now: Time) returns (r: Result<Id>)
    requires db.Valid()
    modifies db`shipments, db`vehicles, db`orders, db`nextId
    ensures db.Valid()
    ensures req.orderId !in old(db.orders) ==> r == Err(NotFound("Order not found"))
    ensures req.orderId in old(db.orders) && HasShipment(old(db.shipments), req.orderId) ==>
      r == Err(Business("Shipment already exists for this order"))
    ensures (req.orderId in old(db.orders) && !HasShipment(old(db.shipments), req.orderId)
             && req.vehicleId !in old(db.vehicles)) ==>
      r == Err(NotFound("Vehicle not found"))
    ensures (req.orderId in old(db.orders) && !HasShipment(old(db.shipments), req.orderId)
             && req.vehicleId in old(db.vehicles) && old(db.vehicles)[req.vehicleId].status != "AVAILABLE") ==>
      r == Err(Business("Vehicle is not available"))
    ensures (req.orderId in old(db.orders) && !HasShipment(old(db.shipments), req.orderId)
             && req.vehicleId in old(db.vehicles) && old(db.vehicles)[req.vehicleId].status == "AVAILABLE"
             && req.driverId !in db.users) ==>
      r == Err(NotFound("Driver not found"))
    ensures (req.orderId in old(db.orders) && !HasShipment(old(db.shipments), req.orderId)
             && req.vehicleId in old(db.vehicles) && old(db.vehicles)[req.vehicleId].status == "AVAILABLE"
             && req.driverId in db.users && db.users[req.driverId].role != DRIVER) ==>
      r == Err(Business("User is not a driver"))
    ensures r.Ok? <==>
      && req.orderId in old(db.orders)
      && !HasShipment(old(db.shipments), req.orderId)
      && req.vehicleId in old(db.vehicles)
      && old(db.vehicles)[req.vehicleId].status == "AVAILABLE"
      && req.driverId in db.users
      && db.users[req.driverId].role == DRIVER
    ensures r.Err? ==>
      && db.shipments == old(db.shipments) && db.vehicles == old(db.vehicles)
      && db.orders == old(db.orders) && db.nextId == old(db.nextId)
    ensures r.Ok? ==>
      && r.value !in old(db.shipments)
      && db.shipments == old(db.shipments)[r.value := NewShipment(req, trackingNumber, now)]
      && db.vehicles == old(db.vehicles)[req.vehicleId :=
           old(db.vehicles)[req.vehicleId].(status := "IN_USE", currentDriver := Some(req.driverId))]
      && db.orders == old(db.orders)[req.orderId := old(db.orders)[req.orderId].(status := O.SHIPPED)]
  {
    if req.orderId !in db.orders {
      return Err(NotFound("Order not found"));
    }
    if HasShipment(db.shipments, req.orderId) {
      return Err(Business("Shipment already exists for this order"));
    }
    if req.vehicleId !in db.vehicles {
      return Err(NotFound("Vehicle not found"));
    }
    var vehicle := db.vehicles[req.vehicleId];
    if vehicle.status != "AVAILABLE" {
      return Err(Business("Vehicle is not available"));
    }
    if req.driverId !in db.users {
      return Err(NotFound("Driver not found"));
    }
    if db.users[req.driverId].role != DRIVER {
      return Err(Business("User is not a driver"));
    }
    var shipment := NewShipment(req, trackingNumber, now);
    db.vehicles := db.vehicles[req.vehicleId := vehicle.(status := "IN_USE", currentDriver := Some(req.driverId))];
    db.orders := db.orders[req.orderId := db.orders[req.orderId].(status := O.SHIPPED)];
    var id := db.nextId;
    db.nextId := db.nextId + 1;
    db.shipments := db.shipments[id := shipment];
    r := Ok(id);
  }

  /** The status a location report leaves: a shipment not yet moving is now in transit. */
  function StatusAfterLocation(st: ShipmentStatus): ShipmentStatus
  {
    if st == PENDING || st == PICKED_UP then IN_TRANSIT else st
  }

  /** The statuses `getActiveShipments` asks for. */
  const ActiveStatuses: set<ShipmentStatus> := {PENDING, PICKED_UP, IN_TRANSIT, OUT_FOR_DELIVERY}

  /**
   * A location report moves only PENDING and PICKED_UP (to IN_TRANSIT), applying
   * it twice is the same as once, and it never makes a shipment active or inactive.
   */
  lemma LocationStatusRule(st: ShipmentStatus)
    ensures st == PENDING || st == PICKED_UP ==> StatusAfterLocation(st) == IN_TRANSIT
    ensures st != PENDING && st != PICKED_UP ==> StatusAfterLocation(st) == st
    ensures StatusAfterLocation(StatusAfterLocation(st)) == StatusAfterLocation(st)
    ensures (StatusAfterLocation(st) in ActiveStatuses) == (st in ActiveStatuses)
  {
  }

  /** `updateLocation`, without the WebSocket push. */
  method UpdateLocation(db: Database, shipmentId: Id, upd: LocationUpdate, now: Time) returns (r: Result<Shipment>)
    requires db.Valid()
    modifies db`shipments, db`tracking
    ensures db.Valid()
    ensures r.Err? <==> shipmentId !in old(db.shipments)
    ensures r.Err? ==>
      && r == Err(NotFound("Shipment not found"))
      && db.shipments == old(db.shipments) && db.tracking == old(db.tracking)
    ensures r.Ok? ==>
      var s := old(db.shipments)[shipmentId];
      && r.value == s.(currentLatitude := upd.latitude, currentLongitude := upd.longitude,
                       currentSpeed := upd.speed, status := StatusAfterLocation(s.status))
      && db.shipments == old(db.shipments)[shipmentId := r.value]
      && db.tracking == old(db.tracking)
           + [ShipmentTracking(shipmentId, r.value.status, upd.latitude, upd.longitude,
                               upd.location, upd.speed, upd.notes, now)]
  {
    if shipmentId !in db.shipments {
      return Err(NotFound("Shipment not found"));
    }
    var s := db.shipments[shipmentId];
    s := s.(currentLatitude := upd.latitude, currentLongitude := upd.longitude, currentSpeed := upd.speed);
    if s.status == PENDING || s.status == PICKED_UP {
      s := s.(status := IN_TRANSIT);
    }
    db.shipments := db.shipments[shipmentId := s];
    db.tracking := db.tracking + [ShipmentTracking(shipmentId, s.status, upd.latitude, upd.longitude,
                                                   upd.location, upd.speed, upd.notes, now)];
    r := Ok(s);
  }

  /** `updateStatus`: any status may follow any other; delivery completes the order and frees the vehicle. */
  method UpdateStatus(db: Database, shipmentId: Id, statusName: string, now: Time) returns (r: Result<Shipment>)
    requires db.Valid()
    modifies db`shipments, db`orders, db`vehicles
    ensures db.Valid()
    ensures shipmentId !in old(db.shipments) ==> r == Err(NotFound("Shipment not found"))
    ensures shipmentId in old(db.shipments) && ParseShipmentStatus(statusName).None? ==>
      r == Err(IllegalArgument(statusName))
    ensures r.Ok? <==> shipmentId in old(db.shipments) && ParseShipmentStatus(statusName).Some?
    ensures r.Err? ==>
      db.shipments == old(db.shipments) && db.orders == old(db.orders) && db.vehicles == old(db.vehicles)
    ensures r.Ok? ==>
      var s := old(db.shipments)[shipmentId];
      var st := ParseShipmentStatus(statusName).value;
      && db.shipments == old(db.shipments)[shipmentId := r.value]
      && (st != DELIVERED ==>
            r.value == s.(status := st) && db.orders == old(db.orders) && db.vehicles == old(db.vehicles))
      && (st == DELIVERED ==>
            && r.value == s.(status := DELIVERED, actualDeliveryTime := Some(now))
            && db.orders == old(db.orders)[s.order :=
                 old(db.orders)[s.order].(status := O.DELIVERED, actualDeliveryDate := Some(now))]
            && db.vehicles == old(db.vehicles)[s.vehicle :=
                 old(db.vehicles)[s.vehicle].(status := "AVAILABLE", currentDriver := None)])
  {
    if shipmentId !in db.shipments {
      return Err(NotFound("Shipment not found"));
    }
    var parsed := ParseShipmentStatus(statusName);
    if parsed.None? {
      return Err(IllegalArgument(statusName));
    }
    var s := db.shipments[shipmentId].(status := parsed.value);
    if parsed.value == DELIVERED {
      s := s.(actualDeliveryTime := Some(now));
      var o := db.orders[s.order];
      db.orders := db.orders[s.order := o.(status := O.DELIVERED, actualDeliveryDate := Some(now))];
      var v := db.vehicles[s.vehicle];
      db.vehicles := db.vehicles[s.vehicle := v.(status := "AVAILABLE", currentDriver := None)];
    }
    db.shipments := db.shipments[shipmentId := s];
    r := Ok(s);
  }

  /** `getActiveShipments`: the shipments whose status is in the active list. */
  function ActiveShipments(shipments: map<Id, Shipment>): set<Id>
  {
    set id | id in shipments && shipments[id].status in ActiveStatuses
  }

  /** The active shipments are exactly those not yet delivered, failed, returned or cancelled. */
  lemma ActiveShipmentsExact(shipments: map<Id, Shipment>, id: Id)
    ensures id in ActiveShipments(shipments) <==>
      id in shipments && shipments[id].status !in {DELIVERED, FAILED, RETURNED, CANCELLED}
  {
    if id in shipments {
      match shipments[id].status
      case PENDING =>
      case PICKED_UP =>
      case IN_TRANSIT =>
      case OUT_FOR_DELIVERY =>
      case DELIVERED =>
      case FAILED =>
      case RETURNED =>
      case CANCELLED =>
    }
  }
}
