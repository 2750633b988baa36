/**
 * The persistent state the services work on: one field per JPA repository,
 * and the plain records stored in them. Entities are held by value and an
 * update replaces the stored value, as `repository.save` does.
 */
module Store {
  import opened Common
  import opened InventoryEntity
  import opened OrderEntity
  import opened ShipmentEntity

  datatype Role = ADMIN | MANAGER | WAREHOUSE_STAFF | DRIVER | CUSTOMER

  /** The user fields the services read or write (the entity's source file is not part of this model). */
  datatype User = User(username: string, fullName: string, email: string, role: Role, lastLogin: Option<Time>)

  /** The descriptive supplier fields a request carries and the services copy verbatim. */
  datatype SupplierProfile = SupplierProfile(
    name: string,
    code: string,
    contactPerson: Option<string>,
    email: Option<string>,
    phoneNumber: Option<string>,
    address: Option<string>,
    taxCode: Option<string>,
    description: Option<string>)

  datatype Supplier = Supplier(profile: SupplierProfile, status: string, rating: real)

  /** The descriptive product fields; prices in minor units. */
  datatype ProductProfile = ProductProfile(
    name: string,
    sku: string,
    category: Option<string>,
    brand: Option<string>,
    price: int,
    costPrice: Option<int>,
    unit: Option<string>,
    weight: Option<real>,
    length: Option<real>,
    width: Option<real>,
    height: Option<real>,
    description: Option<string>,
    imageUrl: Option<string>)

  datatype Product = Product(profile: ProductProfile, supplier: Option<Id>, status: string)

  datatype WarehouseProfile = WarehouseProfile(
    name: string,
    address: string,
    city: Option<string>,
    district: Option<string>,
    latitude: Option<real>,
    longitude: Option<real>,
    capacity: Option<int>,
    phoneNumber: Option<string>,
    managerName: Option<string>,
    description: Option<string>)

  datatype Warehouse = Warehouse(profile: WarehouseProfile, currentUsage: int, status: string)

  /** The vehicle fields that create and update copy from a request (the plate is kept apart). */
  datatype VehicleSpec = VehicleSpec(
    vehicleType: string,
    brand: Option<string>,
    model: Option<string>,
    year: Option<int>,
    capacity: Option<real>,
    volumeCapacity: Option<real>,
    fuelEfficiency: Option<real>)

  datatype Vehicle = Vehicle(
    licensePlate: string,
    spec: VehicleSpec,
    status: string,
    currentMileage: Option<real>,
    lastMaintenanceDate: Option<Time>,
    nextMaintenanceDate: Option<Time>,
    currentDriver: Option<Id>)

  datatype TransactionType = STOCK_IN | STOCK_OUT | ADJUSTMENT | RETURN | TRANSFER | DAMAGE

  /** One ledger row; `inventory` is the (product, warehouse) pair of the record it belongs to. */
  datatype InventoryTransaction = InventoryTransaction(
    inventory: (Id, Id),
    kind: TransactionType,
    quantity: int,
    beforeQuantity: int,
    afterQuantity: int,
    referenceNumber: Option<string>,
    notes: Option<string>,
    transactionDate: Time)

  datatype ShipmentTracking = ShipmentTracking(
    shipment: Id,
    status: ShipmentStatus,
    latitude: Option<real>,
    longitude: Option<real>,
    location: Option<string>,
    speed: Option<real>,
    notes: Option<string>,
    timestamp: Time)

  datatype AttendanceStatus = ON_TIME | LATE | EARLY_LEAVE | ABSENT

  datatype Attendance = Attendance(
    user: Id,
    checkInTime: Time,
    checkOutTime: Option<Time>,
    status: AttendanceStatus,
    checkInPhotoUrl: Option<string>,
    checkOutPhotoUrl: Option<string>,
    checkInLocation: Option<string>,
    checkOutLocation: Option<string>,
    notes: Option<string>,
    faceRecognitionConfidence: Option<real>,
    isVerified: bool)

  /** Every key of `m` was handed out before `next`. */
  ghost predicate IdsBelow<V>(m: map<Id, V>, next: Id)
  {
    forall id :: id in m ==> id < next
  }

  /** The database: every repository of the backend. */
  class Database {
    var users: map<Id, User>
    var suppliers: map<Id, Supplier>
    var products: map<Id, Product>
    var warehouses: map<Id, Warehouse>
    /** Keyed by (product id, warehouse id), the table's unique constraint. */
    var inventory: map<(Id, Id), Inventory>
    var transactions: seq<InventoryTransaction>
    var orders: map<Id, Order>
    var vehicles: map<Id, Vehicle>
    var shipments: map<Id, Shipment>
    var tracking: seq<ShipmentTracking>
    var attendance: map<Id, Attendance>
    /** The next value of the identity columns. */
    var nextId: nat

    /**
     * Identity columns only hand out fresh values, and the foreign keys a
     * shipment needs when it is delivered point at stored rows.
     */
    ghost predicate Valid()
      reads this
    {
      && IdsBelow(users, nextId) && IdsBelow(suppliers, nextId) && IdsBelow(products, nextId)
      && IdsBelow(warehouses, nextId) && IdsBelow(orders, nextId) && IdsBelow(vehicles, nextId)
      && IdsBelow(shipments, nextId) && IdsBelow(attendance, nextId)
      && (forall id :: id in shipments ==> shipments[id].order in orders && shipments[id].vehicle in vehicles)
    }

    constructor ()
      ensures Valid()
      ensures users == map[] && suppliers == map[] && products == map[] && warehouses == map[]
      ensures inventory == map[] && transactions == [] && orders == map[]
      ensures vehicles == map[] && shipments == map[] && tracking == [] && attendance == map[]
    {
      users, suppliers, products, warehouses := map[], map[], map[], map[];
      inventory, transactions, orders := map[], [], map[];
      vehicles, shipments, tracking, attendance := map[], map[], [], map[];
      nextId := 1;
    }
  }
}
