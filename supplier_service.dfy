/** Suppliers: a unique code, a soft delete and a rating kept within 0 to 5. */
module SupplierService {
  import opened Common
  import opened Catalogue
  import opened Store

  function CodeOf(s: Supplier): string { s.profile.code }

  /** `getActiveSuppliers`. */
  function ActiveSuppliers(suppliers: map<Id, Supplier>): set<Id>
  {
    set id | id in suppliers && suppliers[id].status == "ACTIVE"
  }

  /** Exactly the ACTIVE suppliers are listed: deleting one removes it from the list and keeps the others. */
  lemma ActiveSuppliersAfterDelete(suppliers: map<Id, Supplier>, id: Id)
    requires id in suppliers
    ensures ActiveSuppliers(suppliers[id := suppliers[id].(status := "INACTIVE")])
            == ActiveSuppliers(suppliers) - {id}
  {
  }

  /** `createSupplier`: a unique code, "ACTIVE", rating 0. */
  method CreateSupplier(db: Database, profile: SupplierProfile) returns (r: Result<Id>)
    requires db.Valid()
    modifies db`suppliers, db`nextId
    ensures db.Valid()
    ensures r.Err? <==> KeyTaken(old(db.suppliers), CodeOf, profile.code)
    ensures r.Err? ==>
      && r == Err(Business("Supplier code already exists"))
      && db.suppliers == old(db.suppliers) && db.nextId == old(db.nextId)
    ensures r.Ok? ==>
      && r.value !in old(db.suppliers)
      && db.suppliers == old(db.suppliers)[r.value := Supplier(profile, "ACTIVE", 0.0)]
    ensures old(UniqueKeys(db.suppliers, CodeOf)) ==> UniqueKeys(db.suppliers, CodeOf)
  {
    if KeyTaken(db.suppliers, CodeOf, profile.code) {
      return Err(Business("Supplier code already exists"));
    }
    var s := Supplier(profile, "ACTIVE", 0.0);
    var id := db.nextId;
    if UniqueKeys(db.suppliers, CodeOf) {
      InsertKeepsUnique(db.suppliers, CodeOf, id, s);
    }
    db.suppliers := db.suppliers[id := s];
    db.nextId := db.nextId + 1;
    r := Ok(id);
  }

  /** `updateSupplier`: descriptive fields and code only; status and rating are kept. */
  method UpdateSupplier(db: Database, id: Id, profile: SupplierProfile) returns (r: Result<Supplier>)
    requires db.Valid()
    modifies db`suppliers
    ensures db.Valid()
    ensures id !in old(db.suppliers) ==> r == Err(NotFound("Supplier not found"))
    ensures r.Err? <==>
      || id !in old(db.suppliers)
      || (old(db.suppliers)[id].profile.code != profile.code
          && KeyTaken(old(db.suppliers), CodeOf, profile.code))
    ensures id in old(db.suppliers) && old(db.suppliers)[id].profile.code != profile.code
            && KeyTaken(old(db.suppliers), CodeOf, profile.code)
            ==> r == Err(Business("Supplier code already exists"))
    ensures r.Err? ==> db.suppliers == old(db.suppliers)
    ensures r.Ok? ==>
      && r.value == Supplier(profile, old(db.suppliers)[id].status, old(db.suppliers)[id].rating)
      && db.suppliers == old(db.suppliers)[id := r.value]
    ensures old(UniqueKeys(db.suppliers, CodeOf)) ==> UniqueKeys(db.suppliers, CodeOf)
  {
    if id !in db.suppliers {
      return Err(NotFound("Supplier not found"));
    }
    var s := db.suppliers[id];
    if s.profile.code != profile.code && KeyTaken(db.suppliers, CodeOf, profile.code) {
      return Err(Business("Supplier code already exists"));
    }
    var s' := s.(profile := profile);
    if UniqueKeys(db.suppliers, CodeOf) {
      ReplaceKeepsUnique(db.suppliers, CodeOf, id, s');
    }
    db.suppliers := db.suppliers[id := s'];
    r := Ok(s');
  }

  /** `deleteSupplier`: only the status changes. */
  method DeleteSupplier(db: Database, id: Id) returns (r: Result<Supplier>)
    requires db.Valid()
    modifies db`suppliers
    ensures db.Valid()
    ensures r.Err? <==> id !in old(db.suppliers)
    ensures r.Err? ==> r == Err(NotFound("Supplier not found")) && db.suppliers == old(db.suppliers)
    ensures r.Ok? ==>
      && r.value == old(db.suppliers)[id].(status := "INACTIVE")
      && db.suppliers == old(db.suppliers)[id := r.value]
      && ActiveSuppliers(db.suppliers) == ActiveSuppliers(old(db.suppliers)) - {id}
  {
    if id !in db.suppliers {
      return Err(NotFound("Supplier not found"));
    }
    var s := db.suppliers[id].(status := "INACTIVE");
    ActiveSuppliersAfterDelete(db.suppliers, id);
    db.suppliers := db.suppliers[id := s];
    r := Ok(s);
  }

  predicate RatingInRange(rating: real) { 0.0 <= rating <= 5.0 }

  /** `updateRating`: the supplier must exist, then the value must lie in [0, 5]; it is stored exactly. */
  method UpdateRating(db: Database, id: Id, rating: real) returns (r: Result<Supplier>)
    requires db.Valid()
    modifies db`suppliers
    ensures db.Valid()
    ensures id !in old(db.suppliers) ==> r == Err(NotFound("Supplier not found"))
    ensures id in old(db.suppliers) && !RatingInRange(rating) ==>
      r == Err(Business("Rating must be between 0.0 and 5.0"))
    ensures r.Ok? <==> id in old(db.suppliers) && RatingInRange(rating)
    ensures r.Err? ==> db.suppliers == old(db.suppliers)
    ensures r.Ok? ==>
      && r.value == old(db.suppliers)[id].(rating := rating)
      && db.suppliers == old(db.suppliers)[id := r.value]
  {
    if id !in db.suppliers {
      return Err(NotFound("Supplier not found"));
    }
    if rating < 0.0 || rating > 5.0 {
      return Err(Business("Rating must be between 0.0 and 5.0"));
    }
    var s := db.suppliers[id].(rating := rating);
    db.suppliers := db.suppliers[id := s];
    r := Ok(s);
  }
}
