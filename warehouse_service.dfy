/** Warehouses: created empty and active, updated descriptively, retired softly. */
module WarehouseService {
  import opened Common
  import opened Store

  /** `getWarehouseById`. */
  function GetWarehouseById(warehouses: map<Id, Warehouse>, id: Id): (r: Result<Warehouse>)
    ensures r.Err? <==> id !in warehouses
    ensures r.Err? ==> r.failure == NotFound("Warehouse not found")
    ensures r.Ok? ==> id in warehouses && r.value == warehouses[id]
  {
    if id in warehouses then Ok(warehouses[id]) else Err(NotFound("Warehouse not found"))
  }

  /** `createWarehouse`: usage 0 and "ACTIVE". */
  method CreateWarehouse(db: Database, profile: WarehouseProfile) returns (id: Id)
    requires db.Valid()
    modifies db`warehouses, db`nextId
    ensures db.Valid()
    ensures id !in old(db.warehouses)
    ensures db.warehouses == old(db.warehouses)[id := Warehouse(profile, 0, "ACTIVE")]
  {
    id := db.nextId;
    db.warehouses := db.warehouses[id := Warehouse(profile, 0, "ACTIVE")];
    db.nextId := db.nextId + 1;
  }

  /** `updateWarehouse`: replaces the descriptive fields, never usage or status. */
  method UpdateWarehouse(db: Database, id: Id, profile: WarehouseProfile) returns (r: Result<Warehouse>)
    requires db.Valid()
    modifies db`warehouses
    ensures db.Valid()
    ensures r.Err? <==> id !in old(db.warehouses)
    ensures r.Err? ==> r == Err(NotFound("Warehouse not found")) && db.warehouses == old(db.warehouses)
    ensures r.Ok? ==>
      && r.value == Warehouse(profile, old(db.warehouses)[id].currentUsage, old(db.warehouses)[id].status)
      && db.warehouses == old(db.warehouses)[id := r.value]
  {
    if id !in db.warehouses {
      return Err(NotFound("Warehouse not found"));
    }
    var w := db.warehouses[id].(profile := profile);
    db.warehouses := db.warehouses[id := w];
    r := Ok(w);
  }

  /** `deleteWarehouse`: refused while anything is stored; otherwise "INACTIVE", and the record stays. */
  method DeleteWarehouse(db: Database, id: Id) returns (r: Result<Warehouse>)
    requires db.Valid()
    modifies db`warehouses
    ensures db.Valid()
    ensures id !in old(db.warehouses) ==> r == Err(NotFound("Warehouse not found"))
    ensures id in old(db.warehouses) && old(db.warehouses)[id].currentUsage > 0 ==>
      r == Err(Business("Cannot delete warehouse with active inventory"))
    ensures r.Ok? <==> id in old(db.warehouses) && old(db.warehouses)[id].currentUsage <= 0
    ensures r.Err? ==> db.warehouses == old(db.warehouses)
    ensures r.Ok? ==>
      && r.value == old(db.warehouses)[id].(status := "INACTIVE")
      && db.warehouses == old(db.warehouses)[id := r.value]
  {
    if id !in db.warehouses {
      return Err(NotFound("Warehouse not found"));
    }
    var w := db.warehouses[id];
    if w.currentUsage > 0 {
      return Err(Business("Cannot delete warehouse with active inventory"));
    }
    w := w.(status := "INACTIVE");
    db.warehouses := db.warehouses[id := w];
    r := Ok(w);
  }
}
