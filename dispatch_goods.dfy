/**
 * The "Dispatch Goods" page of the warehouse staff: a dispatch list built by
 * scanning SKUs against the page's product catalogue, per-line quantity
 * edits, removal, and the submit check that clears the form.
 * The page state is a class whose handlers replace the list; toasts are
 * returned as notices.
 */
module DispatchGoods {
  import opened Common
  import opened Lists
  import opened Grouping

  /** An entry of the page's fixed product catalogue. */
  datatype CatalogueProduct = CatalogueProduct(id: int, sku: string, name: string, zone: string, available: int)

  /** A line of the dispatch list. */
  datatype DispatchItem = DispatchItem(sku: string, name: string, zone: string, quantity: int, available: int)

  datatype DispatchForm = DispatchForm(
    orderNumber: string,
    driver: string,
    destination: string,
    estimatedDelivery: string,
    notes: string)

  const EmptyForm := DispatchForm("", "", "", "", "")

  /** The form's inputs, by their `name` attribute. */
  datatype DispatchField = OrderNumber | Driver | Destination | EstimatedDelivery | Notes

  function FieldValue(form: DispatchForm, field: DispatchField): string
  {
    match field
    case OrderNumber => form.orderNumber
    case Driver => form.driver
    case Destination => form.destination
    case EstimatedDelivery => form.estimatedDelivery
    case Notes => form.notes
  }

  /** `handleChange`: `{...formData, [name]: value}` sets the named input and keeps the others. */
  function WithField(form: DispatchForm, field: DispatchField, value: string): (r: DispatchForm)
    ensures FieldValue(r, field) == value
    ensures forall g: DispatchField :: g != field ==> FieldValue(r, g) == FieldValue(form, g)
  {
    match field
    case OrderNumber => form.(orderNumber := value)
    case Driver => form.(driver := value)
    case Destination => form.(destination := value)
    case EstimatedDelivery => form.(estimatedDelivery := value)
    case Notes => form.(notes := value)
  }

  /** The toasts the handlers raise. */
  datatype Notice =
    | Added(productName: string)
    | ProductNotFound
    | OnlyAvailable(units: int)
    | NoItems
    | MissingFields
    | DispatchCreated

  /** `availableProducts.find((p) => p.sku === sku)` over the three catalogue entries. */
  function CatalogueLookup(sku: string): (r: Option<CatalogueProduct>)
    ensures r.Some? <==> sku in {"ELEC-001", "ELEC-002", "CLOTH-001"}
    ensures r.Some? ==> r.value.sku == sku && r.value.available > 0
  {
    if sku == "ELEC-001" then Some(CatalogueProduct(1, "ELEC-001", "Samsung Galaxy S24", "A-12", 45))
    else if sku == "ELEC-002" then Some(CatalogueProduct(2, "ELEC-002", "iPhone 15 Pro", "A-13", 8))
    else if sku == "CLOTH-001" then Some(CatalogueProduct(3, "CLOTH-001", "T-Shirt Pack", "B-05", 320))
    else None
  }

  predicate Listed(items: seq<DispatchItem>, sku: string)
  {
    exists i | 0 <= i < |items| :: items[i].sku == sku
  }

  function SkuOf(item: DispatchItem): string
  {
    item.sku
  }

  /** Every SKU appears on at most one line. */
  predicate UniqueSkus(items: seq<DispatchItem>)
  {
    UniqueBy(items, SkuOf)
  }

  /** `(i) => i.sku === sku` */
  function SkuIs(sku: string): DispatchItem -> bool
  {
    (item: DispatchItem) => item.sku == sku
  }

  /** `(item) => item.sku !== sku` */
  function SkuIsNot(sku: string): DispatchItem -> bool
  {
    (item: DispatchItem) => item.sku != sku
  }

  /** Every line with the SKU gets quantity `q`; the others stay. */
  function WithQuantity(items: seq<DispatchItem>, sku: string, q: DispatchItem -> int): (r: seq<DispatchItem>)
    ensures |r| == |items|
  {
    seq(|items|, i requires 0 <= i < |items| =>
      if items[i].sku == sku then items[i].(quantity := q(items[i])) else items[i])
  }

  /** The list after `handleScanProduct` with `sku` in the scan box. */
  function Scanned(items: seq<DispatchItem>, sku: string): seq<DispatchItem>
  {
    match CatalogueLookup(sku)
    case None => items
    case Some(p) =>
      if Listed(items, sku) then WithQuantity(items, sku, (item: DispatchItem) => item.quantity + 1)
      else items + [DispatchItem(p.sku, p.name, p.zone, 1, p.available)]
  }

  /** The list after `handleQuantityChange(sku, newQuantity)`, with the rejection notice if there is one. */
  function QuantityChanged(items: seq<DispatchItem>, sku: string, newQuantity: int): (seq<DispatchItem>, Option<Notice>)
    requires Listed(items, sku)
  {
    var item := items[FirstIndex(items, SkuIs(sku))];
    if newQuantity > item.available then (items, Some(OnlyAvailable(item.available)))
    else (WithQuantity(items, sku, (_: DispatchItem) => if newQuantity < 1 then 1 else newQuantity), None)
  }

  /** `getTotalItems`: Σ quantity over the list. */
  function TotalItems(items: seq<DispatchItem>): int
  {
    SumOf(items, (item: DispatchItem) => item.quantity)
  }

  class DispatchPage {
    var form: DispatchForm
    var items: seq<DispatchItem>
    var scannedSku: string

    /** The page as it mounts: an empty form, an empty list and an empty scan box. */
    constructor ()
      ensures form == EmptyForm && items == [] && scannedSku == ""
    {
      form := EmptyForm;
      items := [];
      scannedSku := "";
    }

    /** `handleChange` on one of the form's inputs. */
    method ChangeField(field: DispatchField, value: string)
      modifies this
      ensures form == WithField(old(form), field, value) && items == old(items) && scannedSku == old(scannedSku)
    {
      form := WithField(form, field, value);
    }

    /** Typing in the scan box. */
    method TypeSku(sku: string)
      modifies this
      ensures scannedSku == sku && items == old(items) && form == old(form)
    {
      scannedSku := sku;
    }

    /** `handleScanProduct`: an unknown SKU only raises "Product not found"; a known one updates the list and clears the box. */
    method Scan() returns (notice: Notice)
      modifies this
      ensures items == Scanned(old(items), old(scannedSku))
      ensures form == old(form)
      ensures match CatalogueLookup(old(scannedSku))
              case None => notice == ProductNotFound && scannedSku == old(scannedSku)
              case Some(p) => notice == Added(p.name) && scannedSku == ""
    {
      var product := CatalogueLookup(scannedSku);
      if product.None? {
        notice := ProductNotFound;
      } else {
        items := Scanned(items, scannedSku);
        notice := Added(product.value.name);
        scannedSku := "";
      }
    }

    /** `handleQuantityChange`; it is only reachable from a listed line (an unlisted SKU would dereference `undefined`). */
    method ChangeQuantity(sku: string, newQuantity: int) returns (notice: Option<Notice>)
      requires Listed(items, sku)
      modifies this
      ensures (items, notice) == QuantityChanged(old(items), sku, newQuantity)
      ensures form == old(form) && scannedSku == old(scannedSku)
    {
      var k := FindIndex(items, SkuIs(sku));
      var item := items[k];
      if newQuantity > item.available {
        notice := Some(OnlyAvailable(item.available));
      } else {
        items := WithQuantity(items, sku, (_: DispatchItem) => if newQuantity < 1 then 1 else newQuantity);
        notice := None;
      }
    }

    /** `handleRemoveItem`: the lines with other SKUs, in order. */
    method RemoveItem(sku: string)
      modifies this
      ensures items == Filter(old(items), SkuIsNot(sku))
      ensures form == old(form) && scannedSku == old(scannedSku)
    {
      items := Filter(items, SkuIsNot(sku));
    }

    /**
     * `handleSubmit`: an empty list, or an empty order number, driver or
     * destination, is refused with nothing changed; otherwise the list and
     * the form are reset.
     */
    method Submit() returns (notice: Notice)
      modifies this
      ensures old(items) == [] ==> notice == NoItems && items == old(items) && form == old(form)
      ensures old(items) != [] && (old(form).orderNumber == "" || old(form).driver == "" || old(form).destination == "") ==>
        notice == MissingFields && items == old(items) && form == old(form)
      ensures notice == DispatchCreated <==>
        old(items) != [] && old(form).orderNumber != "" && old(form).driver != "" && old(form).destination != ""
      ensures notice == DispatchCreated ==> items == [] && form == EmptyForm
      ensures scannedSku == old(scannedSku)
    {
      if |items| == 0 {
        notice := NoItems;
      } else if form.orderNumber == "" || form.driver == "" || form.destination == "" {
        notice := MissingFields;
      } else {
        notice := DispatchCreated;
        form := EmptyForm;
        items := [];
      }
    }
  }

  /** On a list with unique SKUs, the lines with `sku` are exactly the one at its first index. */
  lemma UniqueSkuAt(items: seq<DispatchItem>, sku: string)
    requires UniqueSkus(items) && Listed(items, sku)
    ensures 0 <= FirstIndex(items, SkuIs(sku))
    ensures forall i :: 0 <= i < |items| && items[i].sku == sku ==> i == FirstIndex(items, SkuIs(sku))
  {
  }

  /** With unique SKUs, editing the lines of one SKU is a point update of its single line. */
  lemma WithQuantityIsPointUpdate(items: seq<DispatchItem>, sku: string, q: DispatchItem -> int)
    requires UniqueSkus(items) && Listed(items, sku)
    ensures var k := FirstIndex(items, SkuIs(sku));
      0 <= k && WithQuantity(items, sku, q) == items[k := items[k].(quantity := q(items[k]))]
  {
    UniqueSkuAt(items, sku);
  }

  /**
   * Scanning: an SKU outside the catalogue leaves the list as it is; a
   * listed SKU gets one more unit on its line with the length unchanged;
   * a new catalogue SKU is appended with quantity 1 and the catalogue's
   * available count.
   */
  lemma ScannedEffect(items: seq<DispatchItem>, sku: string)
    ensures CatalogueLookup(sku).None? ==> Scanned(items, sku) == items
    ensures CatalogueLookup(sku).Some? && Listed(items, sku) ==>
      |Scanned(items, sku)| == |items| &&
      forall i :: 0 <= i < |items| ==>
        Scanned(items, sku)[i] == if items[i].sku == sku then items[i].(quantity := items[i].quantity + 1) else items[i]
    ensures CatalogueLookup(sku).Some? && !Listed(items, sku) ==>
      var p := CatalogueLookup(sku).value;
      Scanned(items, sku) == items + [DispatchItem(sku, p.name, p.zone, 1, p.available)]
  {
  }

  /** Scanning and removing keep every SKU on one line. */
  lemma ScanAndRemoveKeepSkusUnique(items: seq<DispatchItem>, sku: string, other: string)
    requires UniqueSkus(items)
    ensures UniqueSkus(Scanned(items, sku))
    ensures UniqueSkus(Filter(items, SkuIsNot(other)))
  {
    FilterUniqueBy(items, SkuIsNot(other), SkuOf);
  }

  /** A successful scan adds exactly one unit to the total. */
  lemma ScanAddsOne(items: seq<DispatchItem>, sku: string)
    requires UniqueSkus(items) && CatalogueLookup(sku).Some?
    ensures TotalItems(Scanned(items, sku)) == TotalItems(items) + 1
  {
    var qty := (item: DispatchItem) => item.quantity;
    var p := CatalogueLookup(sku).value;
    if Listed(items, sku) {
      var inc := (item: DispatchItem) => item.quantity + 1;
      WithQuantityIsPointUpdate(items, sku, inc);
      var k := FirstIndex(items, SkuIs(sku));
      SumOfUpdate(items, k, items[k].(quantity := inc(items[k])), qty);
    } else {
      var line := DispatchItem(p.sku, p.name, p.zone, 1, p.available);
      SumOfAppend(items, [line], qty);
      assert SumOf([line], qty) == SumOf([], qty) + 1;
    }
  }

  /**
   * A witness of what `ScannedEffect` implies: scanning never consults
   * `available`, so a ninth scan of the eight-unit phone lists nine.
   */
  lemma ScanIgnoresAvailable()
    ensures var items := [DispatchItem("ELEC-002", "iPhone 15 Pro", "A-13", 8, 8)];
      Scanned(items, "ELEC-002")[0].quantity == 9 > Scanned(items, "ELEC-002")[0].available
  {
    var items := [DispatchItem("ELEC-002", "iPhone 15 Pro", "A-13", 8, 8)];
    assert Listed(items, "ELEC-002") by {
      assert items[0].sku == "ELEC-002";
    }
  }

  /**
   * A quantity above the line's `available` is refused with the list
   * unchanged; any other value sets that SKU's line to max(1, value), so
   * on a list with unique SKUs the line then stays within 1..available.
   */
  lemma QuantityChangeEffect(items: seq<DispatchItem>, sku: string, newQuantity: int)
    requires Listed(items, sku)
    ensures var k := FirstIndex(items, SkuIs(sku));
      0 <= k &&
      (newQuantity > items[k].available ==>
        QuantityChanged(items, sku, newQuantity) == (items, Some(OnlyAvailable(items[k].available)))) &&
      (newQuantity <= items[k].available ==>
        QuantityChanged(items, sku, newQuantity).1 == None &&
        forall i :: 0 <= i < |items| ==>
          QuantityChanged(items, sku, newQuantity).0[i]
            == if items[i].sku == sku then items[i].(quantity := if newQuantity < 1 then 1 else newQuantity) else items[i])
    ensures UniqueSkus(items) && newQuantity <= items[FirstIndex(items, SkuIs(sku))].available ==>
      var r := QuantityChanged(items, sku, newQuantity).0;
      var k := FirstIndex(items, SkuIs(sku));
      1 <= r[k].quantity && (1 <= items[k].available ==> r[k].quantity <= r[k].available)
  {
  }
}
