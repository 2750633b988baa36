# Warehouse management system — a Dafny model

This project models the core of a warehouse management system. The
system is a Spring backend with a React frontend. The model covers the
following parts:

- **Stock ledger.** Per product and warehouse, quantity and reserved
  quantity, stock in, stock out and transfers, and the transaction rows
  they append.
- **Order lifecycle.** Reservation on creation, the status rules, and
  release or deduction of stock on cancel and ship.
- **Shipments and vehicles.** Their state machines and the delay
  predicate.
- **Catalogue.** Products, suppliers and warehouses, with their
  unique-key checks and soft deletes.
- **Reports.** The four report aggregations.
- **Attendance.** Face-checked check-in and check-out, and the monthly
  counts.
- **Frontend.** The Redux slices, the route gate and role menus, and the
  line-item editors, filters and pagination of the pages.

Each backend service is a set of methods on a `Database` class.
- Its fields are maps standing for the JPA repositories.
- Each service method names, in `modifies`, the repository fields it may
  change. It states the whole new state, exactly when it fails, and, for
  each of its checks in the source's order, the error that check returns.
- Loops that run inside a transaction work on a copy of a table. They are
  proved equal to recursive specification functions. The caller commits
  the copy only on success, which is the all-or-nothing behaviour.

The pure parts (entities, reports, route gate, filters) are functions,
with lemmas stating their properties.

Each Redux slice and each stateful page is a class:
- its fields are the page's or slice's state;
- its methods are the reducers or handlers.

The class's methods are tied to list functions, and lemmas state what those
functions do.

Conventions:
- **Money.** BigDecimal amounts with scale 2 are integers in hundredths.
  Frontend prices are integers.
- **Time.** Times are integer seconds.
- **External inputs.** The clock, the generated order and tracking
  numbers, the face-recognition answer and the stored photo URL are
  parameters.

## Model

| member | source | states |
|---|---|---|
| InventoryEntity.NewRecord | warehouse-backend/src/main/java/com/warehousebackend/service/InventoryService.java:40-49 | a record created for a new (product, warehouse) pair has quantity 0, reserved 0, thresholds 10 and 1000, and no location, batch, expiry or stock dates |
| InventoryEntity.AvailableAfterReservation | warehouse-backend/src/main/java/com/warehousebackend/entity/Inventory.java:82-84 | available = quantity − reserved, so reserving q lowers it by q and receiving q raises it by q |
| InventoryEntity.LowStockIgnoresReservations | warehouse-backend/src/main/java/com/warehousebackend/entity/Inventory.java:86-88 | low stock iff quantity < minThreshold, strictly, whatever the reservation |
| InventoryEntity.NeverLowAndOver | warehouse-backend/src/main/java/com/warehousebackend/entity/Inventory.java:86-92 | with minThreshold ≤ maxThreshold a record is never both low and over stock |
| InventoryEntity.ExpiredIsExpiringSoon | warehouse-backend/src/main/java/com/warehousebackend/entity/Inventory.java:94-101 | for days ≥ 0, expired implies expiring soon; without an expiry date neither holds |
| InventoryService.StockInEffect | warehouse-backend/src/main/java/com/warehousebackend/service/InventoryService.java:51-60 | stock-in raises quantity by exactly the amount and keeps the reservation; location and batch are overwritten only when supplied; issuing the same amount restores the quantity |
| InventoryService.StockOutKeepsAvailable | warehouse-backend/src/main/java/com/warehousebackend/service/InventoryService.java:83-89 | an issue that passed the availability check leaves available quantity ≥ 0 and the reservation unchanged |
| InventoryService.RecordTransaction | warehouse-backend/src/main/java/com/warehousebackend/service/InventoryService.java:168-182 | appends exactly one ledger row and changes nothing else |
| InventoryService.StockIn | warehouse-backend/src/main/java/com/warehousebackend/service/InventoryService.java:32-69 | fails on a missing product or warehouse, with nothing changed; otherwise it stores the received record, creating it if absent, and appends one balanced STOCK_IN row |
| InventoryService.StockOut | warehouse-backend/src/main/java/com/warehousebackend/service/InventoryService.java:72-99 | fails, with nothing changed, with the source's error for each check in order (product, warehouse, record, available < requested); otherwise lowers quantity and appends one balanced STOCK_OUT row |
| InventoryService.TransferConserves | warehouse-backend/src/main/java/com/warehousebackend/service/InventoryService.java:117-142 | a transfer conserves the product's total over the two warehouses, touches no reservation and no other record, and between a warehouse and itself changes nothing |
| InventoryService.TransferStock | warehouse-backend/src/main/java/com/warehousebackend/service/InventoryService.java:102-146 | fails unchanged with the source's error for each of its five checks in order (product, source warehouse, target warehouse, source record, available < requested); otherwise the table is the transferred one and a TRANSFER-OUT and a TRANSFER-IN row are appended |
| OrderItemEntity.CalculateSubtotal | warehouse-backend/src/main/java/com/warehousebackend/entity/OrderItem.java:47-53 | only the subtotal is written, and afterwards it equals price × quantity − discount |
| OrderItemEntity.CalculateSubtotalIdempotent | warehouse-backend/src/main/java/com/warehousebackend/entity/OrderItem.java:47-53 | recomputing twice is recomputing once; a consistent line is left as it is |
| OrderItemEntity.UndiscountedSubtotal | warehouse-backend/src/main/java/com/warehousebackend/entity/OrderItem.java:49-53 | with a zero discount, subtotal = price × quantity |
| OrderItemEntity.SubtotalCanBeNegative | warehouse-backend/src/main/java/com/warehousebackend/entity/OrderItem.java:50-52 | there is no lower bound: a discount above price × quantity gives a negative subtotal |
| OrderEntity.ParseOrderStatusRoundTrip | warehouse-backend/src/main/java/com/warehousebackend/service/OrderService.java:123 | `valueOf` accepts exactly the constant names, and name and parse are inverse |
| OrderEntity.CalculateTotalAmount | warehouse-backend/src/main/java/com/warehousebackend/entity/Order.java:133-142 | only subtotal and totalAmount are written: subtotal = Σ line subtotals, total = subtotal + shipping − discount + tax |
| OrderEntity.CalculateTotalAmountIdempotent | warehouse-backend/src/main/java/com/warehousebackend/entity/Order.java:133-142 | calling it twice gives the same order as once |
| OrderEntity.TotalItemsBounds | warehouse-backend/src/main/java/com/warehousebackend/entity/Order.java:144-148 | the unit count of an empty order is 0, and it is at least the number of lines when each line has a unit |
| OrderService.ReserveFailureSticks | warehouse-backend/src/main/java/com/warehousebackend/service/OrderService.java:80-104 | once the item loop fails on a prefix it fails the same way on the whole list (the transaction aborts) |
| OrderService.ReserveItems | warehouse-backend/src/main/java/com/warehousebackend/service/OrderService.java:60-104 | the imperative item loop computes exactly the specification of the reservation pass |
| OrderService.ReserveReservations | warehouse-backend/src/main/java/com/warehousebackend/service/OrderService.java:80-104 | on success only reservedQuantity changes, and only in the order's warehouse, where it rises by the total units requested of each product |
| OrderService.ReserveItemsBuilt | warehouse-backend/src/main/java/com/warehousebackend/service/OrderService.java:60-78 | on success there is one order line per request line, and the subtotal is their sum |
| OrderService.ReserveKeepsAvailable | warehouse-backend/src/main/java/com/warehousebackend/service/OrderService.java:80-83 | every reserved record keeps available quantity ≥ 0 |
| OrderService.ReserveSucceedsIff | warehouse-backend/src/main/java/com/warehousebackend/service/OrderService.java:60-104 | the loop succeeds iff every line's product exists with a record and enough stock for all units asked so far |
| OrderService.NewOrderDefaults | warehouse-backend/src/main/java/com/warehousebackend/service/OrderService.java:43-56 | a new order is PENDING with payment PENDING, tax 0, absent fee and discount 0, and total = subtotal + fee − discount |
| OrderService.CreateOrder | warehouse-backend/src/main/java/com/warehousebackend/service/OrderService.java:34-116 | fails on a missing warehouse, then a missing customer, then with the reservation loop's own failure, with orders and stock unchanged; otherwise stores the new order and the reserved stock |
| OrderService.TransitionRules | warehouse-backend/src/main/java/com/warehousebackend/service/OrderService.java:144-149 | a change out of DELIVERED or CANCELLED is rejected, and every other pair is accepted, the same status included |
| OrderService.AdjustFailureSticks | warehouse-backend/src/main/java/com/warehousebackend/service/OrderService.java:151-174 | once releasing or deducting fails on a missing record, the whole operation fails |
| OrderService.AdjustEffect | warehouse-backend/src/main/java/com/warehousebackend/service/OrderService.java:151-174 | succeeds iff every line has a record; the reservation drops by the order's units of each product, and deducting also drops the quantity by the same amount |
| OrderService.DeductKeepsAvailable | warehouse-backend/src/main/java/com/warehousebackend/service/OrderService.java:162-174 | shipping leaves the available quantity unchanged |
| OrderService.CancelAfterShipReleasesTwice | warehouse-backend/src/main/java/com/warehousebackend/service/OrderService.java:132-149 | SHIPPED then CANCELLED is allowed and lowers the reservation by twice the order's units |
| OrderService.ReleaseInventory | warehouse-backend/src/main/java/com/warehousebackend/service/OrderService.java:151-160 | the release loop computes the release specification |
| OrderService.DeductInventory | warehouse-backend/src/main/java/com/warehousebackend/service/OrderService.java:162-174 | the deduct loop computes the deduct specification |
| OrderService.UpdateOrderStatus | warehouse-backend/src/main/java/com/warehousebackend/service/OrderService.java:119-142 | NotFound, then IllegalArgument, then the terminal-state error, then the failure of the stock effect of CANCELLED or SHIPPED, with nothing changed on failure; otherwise the new status and that stock effect |
| ShipmentEntity.ParseShipmentStatusRoundTrip | warehouse-backend/src/main/java/com/warehousebackend/service/ShipmentService.java:124 | `valueOf` accepts exactly the constant names, and name and parse are inverse |
| ShipmentEntity.DelayMinutes | warehouse-backend/src/main/java/com/warehousebackend/entity/Shipment.java:115-118 | 0 unless delayed; when delayed, the whole minutes since the estimate, which are ≥ 0 |
| ShipmentEntity.CancelledCanBeDelayed | warehouse-backend/src/main/java/com/warehousebackend/entity/Shipment.java:109-113 | only DELIVERED is exempt: a CANCELLED shipment past its estimate is delayed |
| ShipmentEntity.NoEstimateNoDelay | warehouse-backend/src/main/java/com/warehousebackend/entity/Shipment.java:110 | without an estimate there is no delay and 0 delay minutes |
| ShipmentService.NewShipmentDefaults | warehouse-backend/src/main/java/com/warehousebackend/service/ShipmentService.java:56-67 | a new shipment is PENDING and undelivered, and is due at now + 4 hours when no estimate is given |
| ShipmentService.CreateShipment | warehouse-backend/src/main/java/com/warehousebackend/service/ShipmentService.java:34-79 | the error order (order, existing shipment, vehicle, vehicle not AVAILABLE, driver, not a DRIVER); on success the vehicle is IN_USE with the driver, the order is SHIPPED, and stock is untouched |
| ShipmentService.LocationStatusRule | warehouse-backend/src/main/java/com/warehousebackend/service/ShipmentService.java:90-93 | PENDING and PICKED_UP become IN_TRANSIT, every other status stays; idempotent; activeness unchanged |
| ShipmentService.UpdateLocation | warehouse-backend/src/main/java/com/warehousebackend/service/ShipmentService.java:82-117 | stores position and status and appends exactly one tracking row carrying the new status and coordinates |
| ShipmentService.UpdateStatus | warehouse-backend/src/main/java/com/warehousebackend/service/ShipmentService.java:120-149 | any status is accepted; DELIVERED stamps the delivery time, sets the order DELIVERED and frees the vehicle |
| ShipmentService.ActiveShipmentsExact | warehouse-backend/src/main/java/com/warehousebackend/service/ShipmentService.java:157-168 | active iff PENDING, PICKED_UP, IN_TRANSIT or OUT_FOR_DELIVERY |
| Catalogue.TakenKeyOwner | warehouse-backend/src/main/java/com/warehousebackend/service/VehicleService.java:57-59 | with unique keys a taken key belongs to exactly one record |
| Catalogue.InsertKeepsUnique | warehouse-backend/src/main/java/com/warehousebackend/service/SupplierService.java:52-66 | creating under a fresh id and an untaken key keeps keys unique |
| Catalogue.ReplaceKeepsUnique | warehouse-backend/src/main/java/com/warehousebackend/service/ProductService.java:87-91 | updating with the same key or an untaken one keeps keys unique |
| VehicleService.VehicleGuards | warehouse-backend/src/main/java/com/warehousebackend/service/VehicleService.java:113-154 | only AVAILABLE can be assigned, IN_USE cannot be retired, and IN_USE is entered only by assignment |
| VehicleService.RunStaysKnown | warehouse-backend/src/main/java/com/warehousebackend/service/VehicleService.java:113-154 | no run of operations leaves AVAILABLE / IN_USE / BROKEN |
| VehicleService.GetVehicleById | warehouse-backend/src/main/java/com/warehousebackend/service/VehicleService.java:42-46 | NotFound iff the id is unknown, and the stored vehicle otherwise |
| VehicleService.CreateVehicle | warehouse-backend/src/main/java/com/warehousebackend/service/VehicleService.java:56-76 | a taken plate is refused; a new vehicle is AVAILABLE with mileage 0 unless given; plates stay unique |
| VehicleService.UpdateVehicle | warehouse-backend/src/main/java/com/warehousebackend/service/VehicleService.java:79-100 | a colliding plate is refused, the same plate is allowed; status, mileage and driver are kept |
| VehicleService.UpdateMileage | warehouse-backend/src/main/java/com/warehousebackend/service/VehicleService.java:103-110 | stores the given mileage and nothing else |
| VehicleService.RecordMaintenance | warehouse-backend/src/main/java/com/warehousebackend/service/VehicleService.java:113-123 | AVAILABLE whatever the previous status, with the driver kept |
| VehicleService.AssignDriver | warehouse-backend/src/main/java/com/warehousebackend/service/VehicleService.java:126-142 | the vehicle must exist and be AVAILABLE and the user must exist; then IN_USE with that driver |
| VehicleService.DeleteVehicle | warehouse-backend/src/main/java/com/warehousebackend/service/VehicleService.java:145-155 | IN_USE is refused; otherwise BROKEN with the record kept |
| WarehouseService.GetWarehouseById | warehouse-backend/src/main/java/com/warehousebackend/service/WarehouseService.java:38-42 | NotFound iff the id is unknown |
| WarehouseService.CreateWarehouse | warehouse-backend/src/main/java/com/warehousebackend/service/WarehouseService.java:45-63 | a fresh id, usage 0 and ACTIVE |
| WarehouseService.UpdateWarehouse | warehouse-backend/src/main/java/com/warehousebackend/service/WarehouseService.java:66-83 | overwrites the descriptive fields and keeps usage and status |
| WarehouseService.DeleteWarehouse | warehouse-backend/src/main/java/com/warehousebackend/service/WarehouseService.java:86-96 | refused while usage > 0; otherwise INACTIVE with the record kept |
| SupplierService.ActiveSuppliersAfterDelete | warehouse-backend/src/main/java/com/warehousebackend/service/SupplierService.java:32-36 | the active list is exactly the ACTIVE suppliers; a delete removes only that supplier from it |
| SupplierService.CreateSupplier | warehouse-backend/src/main/java/com/warehousebackend/service/SupplierService.java:51-71 | a duplicate code is refused; a new supplier is ACTIVE with rating 0; codes stay unique |
| SupplierService.UpdateSupplier | warehouse-backend/src/main/java/com/warehousebackend/service/SupplierService.java:74-95 | a colliding code is refused; status and rating are kept |
| SupplierService.DeleteSupplier | warehouse-backend/src/main/java/com/warehousebackend/service/SupplierService.java:98-104 | only the status changes, to INACTIVE |
| SupplierService.UpdateRating | warehouse-backend/src/main/java/com/warehousebackend/service/SupplierService.java:107-118 | NotFound first, then a rating outside [0, 5] is refused with no change; otherwise stored exactly |
| ProductService.ListingPrecedence | warehouse-backend/src/main/java/com/warehousebackend/service/ProductService.java:27-42 | a non-empty keyword wins over the category; with neither, all products are listed |
| ProductService.CreateProduct | warehouse-backend/src/main/java/com/warehousebackend/service/ProductService.java:51-79 | a duplicate SKU is refused before a missing supplier; a new product is ACTIVE; SKUs stay unique |
| ProductService.UpdateProduct | warehouse-backend/src/main/java/com/warehousebackend/service/ProductService.java:82-113 | NotFound, then SKU collision, then supplier; keeping the SKU is allowed; status is kept |
| ProductService.DeleteProduct | warehouse-backend/src/main/java/com/warehousebackend/service/ProductService.java:116-122 | a soft delete: INACTIVE and the product remains |
| ReportService.DivHalfUp | warehouse-backend/src/main/java/com/warehousebackend/service/ReportService.java:43-45 | ROUND_HALF_UP division: the nearest whole quotient, with ties away from zero |
| ReportService.SoldAndCancelled | warehouse-backend/src/main/java/com/warehousebackend/service/ReportService.java:32-40 | the sold orders and the cancelled ones partition the list |
| ReportService.SalesReportConsistent | warehouse-backend/src/main/java/com/warehousebackend/service/ReportService.java:26-68 | daily buckets sum to totalSales; status counts, cancelled included, sum to all orders in range; the average is 0 without sales |
| ReportService.OrdersBetweenBounds | warehouse-backend/src/main/java/com/warehousebackend/service/ReportService.java:27-28 | every reported order lies in the range, both ends included |
| ReportService.InventoryReportConsistent | warehouse-backend/src/main/java/com/warehousebackend/service/ReportService.java:70-121 | fails iff a product has no category; otherwise totalValue = Σ price × quantity, and byCategory and byWarehouse each sum to totalQuantity |
| ReportService.StockQueriesMatchEntity | warehouse-backend/src/main/java/com/warehousebackend/repository/InventoryRepository.java:23-27 | the low and over stock queries select what the entity calls low and over stock |
| ReportService.LowAndOverDisjoint | warehouse-backend/src/main/java/com/warehousebackend/service/ReportService.java:112-118 | with ordered thresholds the low and over counts together fit within the row count |
| ReportService.ShipmentReportConsistent | warehouse-backend/src/main/java/com/warehousebackend/service/ReportService.java:123-174 | status counts sum to the shipments in the period; on-time ≤ delivered |
| ReportService.DelayedQueryVersusEntity | warehouse-backend/src/main/java/com/warehousebackend/service/ReportService.java:152-153 | the delayed query and `isDelayed` disagree only on CANCELLED shipments |
| ReportService.MovementCounts | warehouse-backend/src/main/java/com/warehousebackend/service/ReportService.java:176-214 | the per-type counts sum to totalTransactions |
| ReportService.MovementStep | warehouse-backend/src/main/java/com/warehousebackend/service/ReportService.java:187-209 | only STOCK_IN and STOCK_OUT move the in and out sums, and net = in − out |
| AttendanceService.CheckInStatusRule | warehouse-backend/src/main/java/com/warehousebackend/service/AttendanceService.java:29-30 | ON_TIME iff the time of day is strictly before 08:15, otherwise LATE |
| AttendanceService.NewAttendanceDefaults | warehouse-backend/src/main/java/com/warehousebackend/service/AttendanceService.java:83-92 | a created record is verified, has no check-out, and carries its check-in status |
| AttendanceService.CheckIn | warehouse-backend/src/main/java/com/warehousebackend/service/AttendanceService.java:33-101 | the error order (user, non-unique same-day query, already checked in, recognition failed, face mismatch), with nothing created on failure; on success one record and the user's last login |
| AttendanceService.CheckOutNotesRule | warehouse-backend/src/main/java/com/warehousebackend/service/AttendanceService.java:146-148 | notes unchanged when none are given; otherwise appended after " \| ", behind "null" when there was no note |
| AttendanceService.CheckOut | warehouse-backend/src/main/java/com/warehousebackend/service/AttendanceService.java:104-153 | the error order (user, no open record, non-unique open records, failed or mismatched recognition); otherwise closes that record with time, photo, location and notes |
| AttendanceService.ForgottenCheckOutBlocks | warehouse-backend/src/main/java/com/warehousebackend/repository/AttendanceRepository.java:23-26 | two open records make every later check-out fail on the non-unique query |
| AttendanceService.WindowAsWrittenMissesLastDay | warehouse-backend/src/main/java/com/warehousebackend/service/AttendanceService.java:181-185 | the window as written ends at 00:00 of the last day and misses a 09:00 check-in on that day |
| AttendanceService.WindowCoversMonth | warehouse-backend/src/main/java/com/warehousebackend/service/AttendanceService.java:181-185 | the corrected window holds exactly the instants of the month's days |
| AttendanceService.CountsOrdered | warehouse-backend/src/main/java/com/warehousebackend/service/AttendanceService.java:187-199 | the late count ≤ the present count ≤ the number of records read |
| AttendanceService.StatisticsOrdered | warehouse-backend/src/main/java/com/warehousebackend/service/AttendanceService.java:177-204 | lateDays ≤ presentDays ≤ totalDays in both versions; as written the call fails exactly for an unknown user ("User not found") or when a day is present but no record of the calendar month has a check-out (the null total hours are unboxed for the average); corrected, it fails only for an unknown user |
| AttendanceService.MonthRecordsAsWritten | warehouse-backend/src/main/java/com/warehousebackend/service/AttendanceService.java:181-185 | as written, the statistics read exactly the user's records checked in from the month's first instant up to 00:00 of its last day, both ends included |
| AttendanceService.MonthRecordsInMonth | warehouse-backend/src/main/java/com/warehousebackend/service/AttendanceService.java:181-185 | with the corrected window, the records read are exactly the user's records checked in on a day of the month |
| AttendanceService.OpenMonthStatisticsFail | warehouse-backend/src/main/java/com/warehousebackend/service/AttendanceService.java:195-202 | a user checked in on the first day and not yet out gets a NullPointerException as written and one present day when corrected |
| AttendanceService.StatisticsAgreeOffLastDay | warehouse-backend/src/main/java/com/warehousebackend/service/AttendanceService.java:181-185 | the code as written never reads more records than the corrected window; it reads the same ones when the user has no check-in after 00:00 of the last day, and strictly fewer when there is one |
| AttendanceService.LastDayCheckInUncounted | warehouse-backend/src/main/java/com/warehousebackend/service/AttendanceService.java:181-199 | a single check-in at 09:00 on the last day gives totalDays 0 as written and 1 with the corrected window |
| ClientRecords.ReplaceByIdEffect | warehouse-frontend/src/store/slices/productSlice.js:110-115 | the write at `findIndex` replaces the first record with the id, keeps the length, and is a no-op without a match |
| ClientRecords.RemoveByIdEffect | warehouse-frontend/src/store/slices/productSlice.js:117-119 | filtering by id removes every record with it and keeps the rest in order |
| ProductSlice.ProductStore.constructor | warehouse-frontend/src/store/slices/productSlice.js:63-70 | the initial state |
| ProductSlice.ProductStore.ClearError | warehouse-frontend/src/store/slices/productSlice.js:72-74 | error becomes null and nothing else changes |
| ProductSlice.ProductStore.Pending | warehouse-frontend/src/store/slices/productSlice.js:79-81 | loading is set; products and error stay |
| ProductSlice.ProductStore.FetchFulfilled | warehouse-frontend/src/store/slices/productSlice.js:82-88 | products and all three paging fields come from the payload, and loading ends |
| ProductSlice.ProductStore.Rejected | warehouse-frontend/src/store/slices/productSlice.js:89-92 | the error is stored and the products kept |
| ProductSlice.ProductStore.SearchFulfilled | warehouse-frontend/src/store/slices/productSlice.js:97-100 | the products are replaced and the paging fields kept |
| ProductSlice.ProductStore.CreateFulfilled | warehouse-frontend/src/store/slices/productSlice.js:106-108 | appended at the end |
| ProductSlice.ProductStore.UpdateFulfilled | warehouse-frontend/src/store/slices/productSlice.js:110-115 | the first record with the id is replaced; a no-op without one |
| ProductSlice.ProductStore.DeleteFulfilled | warehouse-frontend/src/store/slices/productSlice.js:117-119 | every record with the id is removed, the rest stay in order |
| OrderSlice.OrderStore.constructor | warehouse-frontend/src/store/slices/orderSlice.js:38-45 | the initial state |
| OrderSlice.OrderStore.ClearError | warehouse-frontend/src/store/slices/orderSlice.js:49-51 | error becomes null and nothing else changes |
| OrderSlice.OrderStore.FetchPending | warehouse-frontend/src/store/slices/orderSlice.js:56-58 | loading is set and the rest kept |
| OrderSlice.OrderStore.FetchFulfilled | warehouse-frontend/src/store/slices/orderSlice.js:59-65 | orders and the paging fields come from the payload |
| OrderSlice.OrderStore.FetchRejected | warehouse-frontend/src/store/slices/orderSlice.js:66-69 | loading ends, the error is stored, the orders kept |
| OrderSlice.OrderStore.CreateFulfilled | warehouse-frontend/src/store/slices/orderSlice.js:71-73 | the new order is first, followed by the old list |
| OrderSlice.OrderStore.UpdateStatusFulfilled | warehouse-frontend/src/store/slices/orderSlice.js:75-80 | the first order with the id is replaced; the length never changes |
| WarehouseSlice.WarehouseStore.constructor | warehouse-frontend/src/store/slices/warehouseSlice.js:48-52 | the initial state |
| WarehouseSlice.WarehouseStore.ClearError | warehouse-frontend/src/store/slices/warehouseSlice.js:58-60 | error becomes null and nothing else changes |
| WarehouseSlice.WarehouseStore.FetchPending | warehouse-frontend/src/store/slices/warehouseSlice.js:65-67 | loading is set and the rest kept |
| WarehouseSlice.WarehouseStore.FetchFulfilled | warehouse-frontend/src/store/slices/warehouseSlice.js:68-71 | the list is the payload's content, or empty without one |
| WarehouseSlice.WarehouseStore.FetchRejected | warehouse-frontend/src/store/slices/warehouseSlice.js:72-75 | the error is stored and the list kept |
| WarehouseSlice.WarehouseStore.CreateFulfilled | warehouse-frontend/src/store/slices/warehouseSlice.js:77-79 | appended at the end |
| WarehouseSlice.WarehouseStore.UpdateFulfilled | warehouse-frontend/src/store/slices/warehouseSlice.js:81-86 | the first record with the id is replaced; a no-op without one |
| WarehouseSlice.WarehouseStore.DeleteFulfilled | warehouse-frontend/src/store/slices/warehouseSlice.js:88-90 | every record with the id is removed |
| AppRoutes.GateRules | warehouse-frontend/src/routes/AppRoutes.jsx:48-94 | no token always redirects to /login; with a token, an empty role list admits all and a non-empty one admits exactly its roles; exactly one outcome |
| AppRoutes.RouteFor | warehouse-frontend/src/routes/AppRoutes.jsx:131-235 | a matched route has the visited path, and the area pages are gated by their one role |
| AppRoutes.AuthPagesRedirect | warehouse-frontend/src/routes/AppRoutes.jsx:122-129 | /login and /register redirect a signed-in visitor to the default route and show the form otherwise |
| AppRoutes.TokenWithoutUserLoops | warehouse-frontend/src/routes/AppRoutes.jsx:100-129 | a token without a stored user sends /login back to /login |
| AppRoutes.AreaPageGate | warehouse-frontend/src/routes/AppRoutes.jsx:164-232 | an area page shows for its role, is denied to other signed-in roles, and redirects without a token |
| AppRoutes.MenuEntriesAreAreaPages | warehouse-frontend/src/routes/AppRoutes.jsx:164-232 | every menu path of a staff role is an area page of that role |
| AppRoutes.MenuPathsAdmitted | warehouse-frontend/src/routes/AppRoutes.jsx:100-117 | every menu entry opens for its role and is denied to others; the default route is the first menu entry |
| DashboardLayout.MenuShape | warehouse-frontend/src/components/layout/DashboardLayout.jsx:74-109 | 8/6/5/3 entries for the staff roles and none for anyone else; paths lie in the role's area; texts are unique |
| DashboardLayout.RoleColorTotal | warehouse-frontend/src/components/layout/DashboardLayout.jsx:114-123 | the five roles have distinct colours; anything else is 'default' |
| DispatchGoods.CatalogueLookup | warehouse-frontend/src/pages/warehouse/DispatchGoods.jsx:52-56 | exactly the three catalogue SKUs are found, each with a positive available count |
| DispatchGoods.DispatchPage.constructor | warehouse-frontend/src/pages/warehouse/DispatchGoods.jsx:39-50 | empty form, no lines, empty scan box |
| DispatchGoods.WithField | warehouse-frontend/src/pages/warehouse/DispatchGoods.jsx:64-66 | the named input takes the value and every other input keeps its own |
| DispatchGoods.DispatchPage.ChangeField | warehouse-frontend/src/pages/warehouse/DispatchGoods.jsx:64-66 | the form is updated in that one input; the lines and the scan box are kept |
| DispatchGoods.DispatchPage.TypeSku | warehouse-frontend/src/pages/warehouse/DispatchGoods.jsx:426 | only the scan box changes |
| DispatchGoods.DispatchPage.Scan | warehouse-frontend/src/pages/warehouse/DispatchGoods.jsx:68-97 | the list becomes the scanned list; an unknown SKU only gives "Product not found", a known one clears the box |
| DispatchGoods.DispatchPage.ChangeQuantity | warehouse-frontend/src/pages/warehouse/DispatchGoods.jsx:99-110 | the list and notice are the quantity-change result |
| DispatchGoods.DispatchPage.RemoveItem | warehouse-frontend/src/pages/warehouse/DispatchGoods.jsx:112-114 | the lines with other SKUs, in order |
| DispatchGoods.DispatchPage.Submit | warehouse-frontend/src/pages/warehouse/DispatchGoods.jsx:116-137 | refuses an empty list, then a missing order number, driver or destination, with no change; otherwise resets list and form |
| DispatchGoods.ScannedEffect | warehouse-frontend/src/pages/warehouse/DispatchGoods.jsx:68-96 | unknown SKU: no change; listed SKU: +1 on its line, same length; new SKU: appended with quantity 1 and the catalogue's available |
| DispatchGoods.ScanAndRemoveKeepSkusUnique | warehouse-frontend/src/pages/warehouse/DispatchGoods.jsx:71-114 | scan and remove keep SKUs unique |
| DispatchGoods.ScanAddsOne | warehouse-frontend/src/pages/warehouse/DispatchGoods.jsx:139-141 | a successful scan raises the total by exactly one |
| DispatchGoods.ScanIgnoresAvailable | warehouse-frontend/src/pages/warehouse/DispatchGoods.jsx:76 | scanning does not check `available`: a ninth scan of the 8-unit phone lists 9 |
| DispatchGoods.QuantityChangeEffect | warehouse-frontend/src/pages/warehouse/DispatchGoods.jsx:99-110 | a value above available is refused unchanged; otherwise the SKU's lines get max(1, value), which stays within 1..available |
| CreateOrderDialog.QuantityInput | warehouse-frontend/src/pages/shared/CreateOrderDialog.jsx:313 | `parseInt(v) \|\| 1`: never 0, and a non-zero number is kept as it is |
| CreateOrderDialog.PayloadItems | warehouse-frontend/src/pages/shared/CreateOrderDialog.jsx:143-147 | one payload line per order line with its id, quantity and price |
| CreateOrderDialog.OrderDialog.constructor | warehouse-frontend/src/pages/shared/CreateOrderDialog.jsx:32-45 | the initial form with payment CASH, no lines, no selection, quantity 1 |
| CreateOrderDialog.WithField | warehouse-frontend/src/pages/shared/CreateOrderDialog.jsx:72-77 | the named input takes the value and every other input keeps its own |
| CreateOrderDialog.OrderDialog.ChangeField | warehouse-frontend/src/pages/shared/CreateOrderDialog.jsx:72-77 | the form is updated in that one input; lines, selection and quantity are kept |
| CreateOrderDialog.OrderDialog.Select | warehouse-frontend/src/pages/shared/CreateOrderDialog.jsx:296 | only the selection changes |
| CreateOrderDialog.OrderDialog.EnterQuantity | warehouse-frontend/src/pages/shared/CreateOrderDialog.jsx:313 | the quantity box takes the parsed input, or 1 |
| CreateOrderDialog.OrderDialog.AddItem | warehouse-frontend/src/pages/shared/CreateOrderDialog.jsx:79-115 | no selection or quantity ≤ 0 warns with no change; otherwise the line is added or merged, the selection cleared and the quantity reset to 1 |
| CreateOrderDialog.OrderDialog.RemoveItem | warehouse-frontend/src/pages/shared/CreateOrderDialog.jsx:117-119 | removes that product's lines |
| CreateOrderDialog.OrderDialog.Submit | warehouse-frontend/src/pages/shared/CreateOrderDialog.jsx:128-170 | refuses no lines or no warehouse; the payload's totalAmount is the calculated total; reset only when the request succeeds |
| CreateOrderDialog.AddedEffect | warehouse-frontend/src/pages/shared/CreateOrderDialog.jsx:89-111 | a listed product's quantity grows by the amount with the length unchanged; a new one is appended with its price |
| CreateOrderDialog.EditsKeepProductsUnique | warehouse-frontend/src/pages/shared/CreateOrderDialog.jsx:89-119 | add and remove keep product ids unique |
| CreateOrderDialog.AddedTotal | warehouse-frontend/src/pages/shared/CreateOrderDialog.jsx:89-126 | adding q units raises the total by q × the price of the line they land on: the stored price of an already listed product, which may differ from its current catalogue price, or else the product's price |
| CreateOrderDialog.PayloadTotal | warehouse-frontend/src/pages/shared/CreateOrderDialog.jsx:141-149 | the total of no lines is 0, and the payload total is Σ price × quantity over its own items |
| Cart.CartPage.constructor | warehouse-frontend/src/pages/public/Cart.jsx:24-27 | the two initial items |
| Cart.CartPage.UpdateQuantity | warehouse-frontend/src/pages/public/Cart.jsx:29-35 | the lines become the stepped lines |
| Cart.CartPage.RemoveItem | warehouse-frontend/src/pages/public/Cart.jsx:37-39 | the other lines, in order |
| Cart.InitialCart | warehouse-frontend/src/pages/public/Cart.jsx:24-27 | distinct ids and at least one unit each: the base case of the invariant that EditsKeepCartWellFormed preserves |
| Cart.SteppedEffect | warehouse-frontend/src/pages/public/Cart.jsx:29-35 | only the matching id changes, to max(1, quantity + delta) |
| Cart.EditsKeepCartWellFormed | warehouse-frontend/src/pages/public/Cart.jsx:32 | every quantity stays ≥ 1 and ids stay unique |
| Cart.StepperTotals | warehouse-frontend/src/pages/public/Cart.jsx:41-43 | + raises the subtotal by the line's price; − on a single unit changes nothing |
| Shop.PageRequest | warehouse-frontend/src/pages/public/Shop.jsx:51 | UI page p requests API page p − 1 of size 12 |
| Shop.ShownExactly | warehouse-frontend/src/pages/public/Shop.jsx:61-70 | shown iff loaded and matching search, category and price; in the loaded order |
| Shop.DefaultFilterShows | warehouse-frontend/src/pages/public/Shop.jsx:38-40 | with the initial controls every product priced within 0..10 000 000 is shown |
| Shop.PageMapping | warehouse-frontend/src/pages/public/Shop.jsx:51 | page 1 is request 0, and consecutive pages are consecutive requests |
| Shop.BadgeRules | warehouse-frontend/src/pages/public/Shop.jsx:252-267 | Low Stock iff 1..9, Out of Stock (button disabled) iff 0, never both |
| UsersPage.SliceBound | warehouse-frontend/src/pages/admin/Users.jsx:168-170 | a slice bound lies in 0..length and an in-range bound is kept |
| UsersPage.JsSlice | warehouse-frontend/src/pages/admin/Users.jsx:168-170 | a slice is never longer than the list |
| UsersPage.RowsPerPageChanged | warehouse-frontend/src/pages/admin/Users.jsx:233-236 | the page goes back to 0 |
| UsersPage.FilteredUsersExactly | warehouse-frontend/src/pages/admin/Users.jsx:103-108 | kept iff full name, email or username contains the keyword ignoring case; order kept; empty keyword keeps all |
| UsersPage.VisibleRowsWindow | warehouse-frontend/src/pages/admin/Users.jsx:168-170 | the rows are filtered[page·rpp, page·rpp + rpp) clipped to the list, at most rpp |
| UsersPage.EveryRowOnItsPage | warehouse-frontend/src/pages/admin/Users.jsx:168-170 | each filtered user appears on page i / rpp at row i % rpp |
| UsersPage.PageSizeChangeShowsFirstRows | warehouse-frontend/src/pages/admin/Users.jsx:233-236 | after a size change the table shows the first rows |
| MyOrders.FilteredOrdersExactly | warehouse-frontend/src/pages/public/MyOrders.jsx:81-85 | kept iff order number or status is present and contains the keyword ignoring case; order kept |
| MyOrders.EmptyKeywordKeepsIdentified | warehouse-frontend/src/pages/public/MyOrders.jsx:81-85 | an empty keyword keeps exactly the orders with an order number or a status |
| MyOrders.StatusRules | warehouse-frontend/src/pages/public/MyOrders.jsx:60-69 | cancel only for PENDING; five distinct colours, 'default' otherwise |
| InventoryPage.FilteredItemsExactly | warehouse-frontend/src/pages/warehouse/Inventory.jsx:61-65 | kept iff name or SKU contains the keyword ignoring case; order kept; empty keyword keeps all |
| InventoryPage.StatusChipRules | warehouse-frontend/src/pages/warehouse/Inventory.jsx:48-59 | critical/low/good get distinct chips, anything else none |
| ShipmentsPage.FilteredShipmentsExactly | warehouse-frontend/src/pages/shared/Shipments.jsx:56-60 | kept iff tracking or order number contains the keyword ignoring case; order kept; empty keyword keeps all |
| ShipmentsPage.StatusColorRules | warehouse-frontend/src/pages/shared/Shipments.jsx:46-54 | four distinct colours, 'default' otherwise |
| Text.EmptyKeywordMatches | warehouse-frontend/src/pages/warehouse/Inventory.jsx:61-65 | every string includes the empty keyword |
| Text.KeywordCaseIrrelevant | warehouse-frontend/src/pages/admin/Users.jsx:103-108 | the keyword's case does not matter |

## Left out

- Floating-point values are not modelled. This covers the on-time rate, the average delivery and working hours, usage percentage, face confidence, coordinates and speed, mileage arithmetic and volume. Ratings and mileage are stored as `real` and compared, never computed with.
- The WebSocket pushes of the shipment service, file storage of photos, the face-recognition HTTP client, JWT and password handling, controllers, DTO validation annotations and response mappers are I/O or framework code and are left out.
- `User.java` is not part of this model. The user record holds only the fields the services read and write (role and last login).
- Java's 32-bit `Integer` wrap-around on quantities and JavaScript numbers (NaN from `parseInt`, floating prices) are not modelled. Integers are unbounded.
- Times are whole seconds from an epoch. Sub-second precision and calendar arithmetic (month lengths, `plusMonths`) are left out: a month is given by its first instant and its number of days.
- Paging of repository results (`Pageable`) is left out. Listings return sets of ids.
- The SQL `LIKE` of the product keyword search is modelled as case-sensitive substring search. Database collation and the `%`/`_` wildcards inside a keyword are not modelled.
- JPA entities are values in maps. Aliasing between a loaded entity and its table row is not modelled: an operation writes back the record it changed.
- AttendanceService.CheckIn: the face-mismatch message is modelled without the two user ids it prints, and the recognised user id is never null.
- DispatchGoods.DispatchPage.ChangeQuantity: requires a listed SKU. The handler is only reachable from a listed line, and an unlisted SKU would throw on `undefined`.
- The colour lookups `colors[x] || 'default'` are modelled as plain tables. Keys inherited from `Object.prototype` (such as "toString") are not modelled.
- Users.jsx `getRoleColor` (lines 92-101) is the same table as the dashboard layout's and is modelled by `DashboardLayout.RoleColor`.
- The toasts, dialogs, network calls of the async thunks and the callbacks `onSuccess`/`onClose` are left out. Toasts are returned as notices, and the outcome of a create request is a parameter.
- The fetch pending reducers set `loading` and leave `error` as it was (productSlice.js:79-81, orderSlice.js:56-58, warehouseSlice.js:65-67). The model does the same.

- Text.LowerCase: folds only the ASCII letters A-Z. `String.prototype.toLowerCase` also folds the other Unicode letters, so a search such as "đặng" for "Đặng" matches on the pages but not in the model. Every search filter (users, shop, my orders, inventory, shipments) inherits this.
- Error messages are modelled by their fixed text only. The dynamic parts the services append are dropped. Examples are the available quantity in "Insufficient stock. Available: …" (InventoryService.java:84) and the product id or name in the order errors (OrderService.java:73-81).
- AppRoutes.RouteFor: matches paths exactly. The router's case-insensitive matching and its tolerance of a trailing slash are not modelled.
- The monthly statistics (`AttendanceService.GetUserStatistics`) follow the code. This includes the window that ends at 00:00 of the last day and the unguarded average that throws when the total hours are null. The hours and the average themselves are floating point and are not computed. The corrected version is `GetUserStatisticsIntended`; see Findings.

## Findings

| source | as written | input that shows it | evidently intended | confidence | as-written member | corrected member |
|---|---|---|---|---|---|---|
| warehouse-backend/src/main/java/com/warehousebackend/service/AttendanceService.java:181-185 | the statistics window ends at `startDate.plusMonths(1).minusDays(1)`, the last day of the month at 00:00, and BETWEEN is inclusive | a check-in at 09:00 on the last day of the month is not counted | the window covers the whole last day | not executed | AttendanceService.LastDayCheckInUncounted | AttendanceService.MonthRecordsInMonth |
| warehouse-backend/src/main/java/com/warehousebackend/service/AttendanceService.java:195-202 | `averageWorkingHours` divides the `Double` total hours by presentDays; the total is null unless some record of the calendar month has a check-out (a SQL SUM over no non-null values), and only the total is guarded | a user checks in on the 1st and asks for the month's statistics before checking out: presentDays is 1, the total is null, and unboxing it throws | the average is guarded like the total and is 0 when no hours are known | not executed | AttendanceService.OpenMonthStatisticsFail | AttendanceService.StatisticsOrdered |
