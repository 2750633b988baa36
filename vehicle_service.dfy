/**
 * The fleet: vehicles with a unique licence plate and a status that moves
 * between "AVAILABLE", "IN_USE" and "BROKEN".
 */
module VehicleService {
  import opened Common
  import opened Catalogue
  import opened Store

  datatype VehicleRequest = VehicleRequest(licensePlate: string, spec: VehicleSpec, currentMileage: Option<real>)

  function PlateOf(v: Vehicle): string { v.licensePlate }

  /** What changes a vehicle's status: the guarded assignments and the unconditional ones. */
  datatype VehicleEvent =
    | Assign       // assignDriver, and dispatch by createShipment
    | Maintain     // recordMaintenance
    | Deliver      // a shipment marked DELIVERED frees its vehicle
    | Retire       // deleteVehicle

  /** The status after an event, or None when the service refuses it. */
  function NextVehicleStatus(status: string, ev: VehicleEvent): Option<string>
  {
    match ev
    case Assign => if status == "AVAILABLE" then Some("IN_USE") else None
    case Maintain => Some("AVAILABLE")
    case Deliver => Some("AVAILABLE")
    case Retire => if status == "IN_USE" then None else Some("BROKEN")
  }

  predicate KnownStatus(status: string)
  {
    status == "AVAILABLE" || status == "IN_USE" || status == "BROKEN"
  }

  /** The status after a run of events, stopping at the first refused one. */
  function RunVehicle(status: string, evs: seq<VehicleEvent>): string
    decreases |evs|
  {
    if evs == [] then status
    else match NextVehicleStatus(status, evs[0])
      case None => status
      case Some(next) => RunVehicle(next, evs[1..])
  }

  /**
   * The guards: only an AVAILABLE vehicle can be assigned, an IN_USE one cannot
   * be retired, and IN_USE is entered only by assignment.
   */
  lemma VehicleGuards(status: string, ev: VehicleEvent)
    ensures NextVehicleStatus(status, ev).Some? ==> KnownStatus(NextVehicleStatus(status, ev).value)
    ensures NextVehicleStatus(status, Assign).Some? <==> status == "AVAILABLE"
    ensures NextVehicleStatus(status, Retire).None? <==> status == "IN_USE"
    ensures NextVehicleStatus(status, ev) == Some("IN_USE") ==> ev == Assign && status == "AVAILABLE"
  {
  }

  /**
   * Starting from a known status, no run of events leaves the three statuses.
   * Each event is the status write of one operation, and the operations state
   * it: `RecordMaintenance` writes Maintain's status, `AssignDriver` Assign's
   * and `DeleteVehicle` Retire's, each succeeding exactly when the event is
   * accepted; `ShipmentService.CreateShipment` sets IN_USE only on an
   * AVAILABLE vehicle, and `ShipmentService.UpdateStatus` writes Deliver's.
   */
  lemma {:induction false} RunStaysKnown(status: string, evs: seq<VehicleEvent>)
    requires KnownStatus(status)
    ensures KnownStatus(RunVehicle(status, evs))
    decreases |evs|
  {
    if evs != [] {
      VehicleGuards(status, evs[0]);
      match NextVehicleStatus(status, evs[0])
      case None =>
      case Some(next) => RunStaysKnown(next, evs[1..]);
    }
  }

  /** `getVehicleById`. */
  function GetVehicleById(vehicles: map<Id, Vehicle>, id: Id): (r: Result<Vehicle>)
    ensures r.Err? <==> id !in vehicles
    ensures r.Err? ==> r.failure == NotFound("Vehicle not found")
    ensures r.Ok? ==> id in vehicles && r.value == vehicles[id]
  {
    if id in vehicles then Ok(vehicles[id]) else Err(NotFound("Vehicle not found"))
  }

  /** `createVehicle`: a unique plate, "AVAILABLE", mileage 0 unless given. */
  method CreateVehicle(db: Database, req: VehicleRequest) returns (r: Result<Id>)
    requires db.Valid()
    modifies db`vehicles, db`nextId
    ensures db.Valid()
    ensures r.Err? <==> KeyTaken(old(db.vehicles), PlateOf, req.licensePlate)
    ensures r.Err? ==>
      && r == Err(Business("Vehicle with license plate already exists"))
      && db.vehicles == old(db.vehicles) && db.nextId == old(db.nextId)
    ensures r.Ok? ==>
      && r.value !in old(db.vehicles)
      && db.vehicles == old(db.vehicles)[r.value := Vehicle(req.licensePlate, req.spec, "AVAILABLE",
           if req.currentMileage.Some? then req.currentMileage else Some(0.0), None, None, None)]
    ensures old(UniqueKeys(db.vehicles, PlateOf)) ==> UniqueKeys(db.vehicles, PlateOf)
  {
    if KeyTaken(db.vehicles, PlateOf, req.licensePlate) {
      return Err(Business("Vehicle with license plate already exists"));
    }
    var v := Vehicle(req.licensePlate, req.spec, "AVAILABLE",
                     if req.currentMileage.Some? then req.currentMileage else Some(0.0), None, None, None);
    var id := db.nextId;
    if UniqueKeys(db.vehicles, PlateOf) {
      InsertKeepsUnique(db.vehicles, PlateOf, id, v);
    }
    db.vehicles := db.vehicles[id := v];
    db.nextId := db.nextId + 1;
    r := Ok(id);
  }

  /** `updateVehicle`: plate and specification only; status, mileage, dates and driver are kept. */
  method UpdateVehicle(db: Database, id: Id, req: VehicleRequest) returns (r: Result<Vehicle>)
    requires db.Valid()
    modifies db`vehicles
    ensures db.Valid()
    ensures id !in old(db.vehicles) ==> r == Err(NotFound("Vehicle not found"))
    ensures r.Err? <==>
      || id !in old(db.vehicles)
      || (old(db.vehicles)[id].licensePlate != req.licensePlate
          && KeyTaken(old(db.vehicles), PlateOf, req.licensePlate))
    ensures id in old(db.vehicles) && old(db.vehicles)[id].licensePlate != req.licensePlate
            && KeyTaken(old(db.vehicles), PlateOf, req.licensePlate)
            ==> r == Err(Business("Vehicle with license plate already exists"))
    ensures r.Err? ==> db.vehicles == old(db.vehicles)
    ensures r.Ok? ==>
      && r.value == old(db.vehicles)[id].(licensePlate := req.licensePlate, spec := req.spec)
      && db.vehicles == old(db.vehicles)[id := r.value]
    ensures old(UniqueKeys(db.vehicles, PlateOf)) ==> UniqueKeys(db.vehicles, PlateOf)
  {
    if id !in db.vehicles {
      return Err(NotFound("Vehicle not found"));
    }
    var v := db.vehicles[id];
    if v.licensePlate != req.licensePlate && KeyTaken(db.vehicles, PlateOf, req.licensePlate) {
      return Err(Business("Vehicle with license plate already exists"));
    }
    var v' := v.(licensePlate := req.licensePlate, spec := req.spec);
    if UniqueKeys(db.vehicles, PlateOf) {
      ReplaceKeepsUnique(db.vehicles, PlateOf, id, v');
    }
    db.vehicles := db.vehicles[id := v'];
    r := Ok(v');
  }

  /** `updateMileage`: stores the given value as it is, null included. */
  method UpdateMileage(db: Database, id: Id, mileage: Option<real>) returns (r: Result<Vehicle>)
    requires db.Valid()
    modifies db`vehicles
    ensures db.Valid()
    ensures r.Err? <==> id !in old(db.vehicles)
    ensures r.Err? ==> r == Err(NotFound("Vehicle not found")) && db.vehicles == old(db.vehicles)
    ensures r.Ok? ==>
      && r.value == old(db.vehicles)[id].(currentMileage := mileage)
      && db.vehicles == old(db.vehicles)[id := r.value]
  {
    if id !in db.vehicles {
      return Err(NotFound("Vehicle not found"));
    }
    var v := db.vehicles[id].(currentMileage := mileage);
    db.vehicles := db.vehicles[id := v];
    r := Ok(v);
  }

  /** `recordMaintenance`: whatever the status was, the vehicle is AVAILABLE again; the driver stays. */
  method RecordMaintenance(db: Database, id: Id, nextMaintenanceDate: Option<Time>, now: Time) returns (r: Result<Vehicle>)
    requires db.Valid()
    modifies db`vehicles
    ensures db.Valid()
    ensures r.Err? <==> id !in old(db.vehicles)
    ensures r.Err? ==> r == Err(NotFound("Vehicle not found")) && db.vehicles == old(db.vehicles)
    ensures r.Ok? ==>
      && r.value.status == NextVehicleStatus(old(db.vehicles)[id].status, Maintain).value
      && r.value == old(db.vehicles)[id].(lastMaintenanceDate := Some(now),
                                          nextMaintenanceDate := nextMaintenanceDate,
                                          status := "AVAILABLE")
      && r.value.currentDriver == old(db.vehicles)[id].currentDriver
      && db.vehicles == old(db.vehicles)[id := r.value]
  {
    if id !in db.vehicles {
      return Err(NotFound("Vehicle not found"));
    }
    var v := db.vehicles[id].(lastMaintenanceDate := Some(now),
                              nextMaintenanceDate := nextMaintenanceDate,
                              status := "AVAILABLE");
    db.vehicles := db.vehicles[id := v];
    r := Ok(v);
  }

  /** `assignDriver`: only an AVAILABLE vehicle; the user's role is not checked. */
  method AssignDriver(db: Database, vehicleId: Id, driverId: Id) returns (r: Result<Vehicle>)
    requires db.Valid()
    modifies db`vehicles
    ensures db.Valid()
    ensures vehicleId !in old(db.vehicles) ==> r == Err(NotFound("Vehicle not found"))
    ensures vehicleId in old(db.vehicles) && driverId !in db.users ==> r == Err(NotFound("Driver not found"))
    ensures vehicleId in old(db.vehicles) && driverId in db.users
            && old(db.vehicles)[vehicleId].status != "AVAILABLE"
            ==> r == Err(Business("Vehicle is not available"))
    ensures r.Ok? <==>
      && vehicleId in old(db.vehicles) && driverId in db.users
      && NextVehicleStatus(old(db.vehicles)[vehicleId].status, Assign).Some?
    ensures r.Err? ==> db.vehicles == old(db.vehicles)
    ensures r.Ok? ==>
      && r.value.status == NextVehicleStatus(old(db.vehicles)[vehicleId].status, Assign).value
      && r.value == old(db.vehicles)[vehicleId].(currentDriver := Some(driverId), status := "IN_USE")
      && db.vehicles == old(db.vehicles)[vehicleId := r.value]
  {
    if vehicleId !in db.vehicles {
      return Err(NotFound("Vehicle not found"));
    }
    if driverId !in db.users {
      return Err(NotFound("Driver not found"));
    }
    var v := db.vehicles[vehicleId];
    if v.status != "AVAILABLE" {
      return Err(Business("Vehicle is not available"));
    }
    v := v.(currentDriver := Some(driverId), status := "IN_USE");
    db.vehicles := db.vehicles[vehicleId := v];
    r := Ok(v);
  }

  /** `deleteVehicle`: a soft delete to "BROKEN", refused while the vehicle is in use. */
  method DeleteVehicle(db: Database, id: Id) returns (r: Result<Vehicle>)
    requires db.Valid()
    modifies db`vehicles
    ensures db.Valid()
    ensures id !in old(db.vehicles) ==> r == Err(NotFound("Vehicle not found"))
    ensures id in old(db.vehicles) && old(db.vehicles)[id].status == "IN_USE" ==>
      r == Err(Business("Cannot delete vehicle that is in use"))
    ensures r.Ok? <==> id in old(db.vehicles) && NextVehicleStatus(old(db.vehicles)[id].status, Retire).Some?
    ensures r.Err? ==> db.vehicles == old(db.vehicles)
    ensures r.Ok? ==>
      && r.value.status == NextVehicleStatus(old(db.vehicles)[id].status, Retire).value
      && r.value == old(db.vehicles)[id].(status := "BROKEN")
      && db.vehicles == old(db.vehicles)[id := r.value]
      && db.vehicles.Keys == old(db.vehicles).Keys
  {
    if id !in db.vehicles {
      return Err(NotFound("Vehicle not found"));
    }
    var v := db.vehicles[id];
    if v.status == "IN_USE" {
      return Err(Business("Cannot delete vehicle that is in use"));
    }
    v := v.(status := "BROKEN");
    db.vehicles := db.vehicles[id := v];
    r := Ok(v);
  }
}
