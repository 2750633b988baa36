/**
 * The "Create New Order" dialog: a line-item editor over the loaded
 * products (add or merge a line, remove a line, running total) and the
 * submit check that builds the order payload.
 * Prices are integers in minor units.
 */
module CreateOrderDialog {
  import opened Common
  import opened Lists
  import opened Grouping

  /** A product as the dialog loaded it. */
  datatype Product = Product(id: int, name: string, price: int)

  datatype OrderLine = OrderLine(productId: int, productName: string, price: int, quantity: int)

  datatype OrderForm = OrderForm(
    customerName: string,
    customerEmail: string,
    customerPhone: string,
    shippingAddress: string,
    paymentMethod: string,
    notes: string,
    warehouseId: string)

  const InitialForm := OrderForm("", "", "", "", "CASH", "", "")

  /** The form's inputs, by their `name` attribute. */
  datatype OrderField = CustomerName | CustomerEmail | CustomerPhone | ShippingAddress | PaymentMethod | Notes | WarehouseId

  function FieldValue(form: OrderForm, field: OrderField): string
  {
    match field
    case CustomerName => form.customerName
    case CustomerEmail => form.customerEmail
    case CustomerPhone => form.customerPhone
    case ShippingAddress => form.shippingAddress
    case PaymentMethod => form.paymentMethod
    case Notes => form.notes
    case WarehouseId => form.warehouseId
  }

  /** `handleChange`: `{...formData, [name]: value}` sets the named input and keeps the others. */
  function WithField(form: OrderForm, field: OrderField, value: string): (r: OrderForm)
    ensures FieldValue(r, field) == value
    ensures forall g: OrderField :: g != field ==> FieldValue(r, g) == FieldValue(form, g)
  {
    match field
    case CustomerName => form.(customerName := value)
    case CustomerEmail => form.(customerEmail := value)
    case CustomerPhone => form.(customerPhone := value)
    case ShippingAddress => form.(shippingAddress := value)
    case PaymentMethod => form.(paymentMethod := value)
    case Notes => form.(notes := value)
    case WarehouseId => form.(warehouseId := value)
  }

  /** A line of the payload: `{ productId, quantity, price }`. */
  datatype PayloadItem = PayloadItem(productId: int, quantity: int, price: int)

  datatype OrderPayload = OrderPayload(form: OrderForm, items: seq<PayloadItem>, totalAmount: int)

  datatype Notice =
    | SelectProduct
    | QuantityNotPositive
    | SelectWarehouse
    | AddProduct
    | OrderCreated
    | CreateFailed

  function ProductIdOf(line: OrderLine): int
  {
    line.productId
  }

  /** `(item) => item.productId !== productId` */
  function ProductIdIsNot(productId: int): OrderLine -> bool
  {
    (line: OrderLine) => line.productId != productId
  }

  predicate Listed(lines: seq<OrderLine>, productId: int)
  {
    exists i | 0 <= i < |lines| :: lines[i].productId == productId
  }

  /** The line value `price × quantity`. */
  function LineAmount(line: OrderLine): int
  {
    line.price * line.quantity
  }

  /** `calculateTotal`: Σ price × quantity over the lines. */
  function LinesTotal(lines: seq<OrderLine>): int
  {
    SumOf(lines, LineAmount)
  }

  /** The lines after a successful `handleAddItem` of `quantity` units of `p`. */
  function Added(lines: seq<OrderLine>, p: Product, quantity: int): (r: seq<OrderLine>)
  {
    if Listed(lines, p.id) then
      seq(|lines|, i requires 0 <= i < |lines| =>
        if lines[i].productId == p.id then lines[i].(quantity := lines[i].quantity + quantity) else lines[i])
    else lines + [OrderLine(p.id, p.name, p.price, quantity)]
  }

  /** `parseInt(value) || 1`: an unparsable or zero entry becomes 1; a negative one is kept. */
  function QuantityInput(parsed: Option<int>): (q: int)
    ensures q != 0
    ensures parsed.Some? && parsed.value != 0 ==> q == parsed.value
  {
    match parsed
    case Some(n) => if n == 0 then 1 else n
    case None => 1
  }

  /** The payload lines: each line's id, quantity and price. */
  function PayloadItems(lines: seq<OrderLine>): (r: seq<PayloadItem>)
    ensures |r| == |lines|
    ensures forall i :: 0 <= i < |lines| ==>
      r[i] == PayloadItem(lines[i].productId, lines[i].quantity, lines[i].price)
  {
    seq(|lines|, i requires 0 <= i < |lines| =>
      PayloadItem(lines[i].productId, lines[i].quantity, lines[i].price))
  }

  class OrderDialog {
    var form: OrderForm
    var lines: seq<OrderLine>
    var selected: Option<Product>
    var quantity: int

    /** The dialog's initial state: payment CASH, no lines, nothing selected, quantity 1. */
    constructor ()
      ensures form == InitialForm && lines == [] && selected == None && quantity == 1
    {
      form := InitialForm;
      lines := [];
      selected := None;
      quantity := 1;
    }

    /** `handleChange` on one of the form's inputs. */
    method ChangeField(field: OrderField, value: string)
      modifies this
      ensures form == WithField(old(form), field, value)
      ensures lines == old(lines) && selected == old(selected) && quantity == old(quantity)
    {
      form := WithField(form, field, value);
    }

    /** Picking a product in the selector. */
    method Select(p: Option<Product>)
      modifies this
      ensures selected == p && form == old(form) && lines == old(lines) && quantity == old(quantity)
    {
      selected := p;
    }

    /** The quantity field's `onChange`. */
    method EnterQuantity(parsed: Option<int>)
      modifies this
      ensures quantity == QuantityInput(parsed)
      ensures form == old(form) && lines == old(lines) && selected == old(selected)
    {
      quantity := QuantityInput(parsed);
    }

    /**
     * `handleAddItem`: without a selection, or with a quantity ≤ 0, a
     * warning and no change; otherwise the line is added or merged, the
     * selection cleared and the quantity reset to 1.
     */
    method AddItem() returns (notice: Option<Notice>)
      modifies this
      ensures old(selected).None? ==> notice == Some(SelectProduct) && lines == old(lines)
                                      && selected == old(selected) && quantity == old(quantity)
      ensures old(selected).Some? && old(quantity) <= 0 ==>
        notice == Some(QuantityNotPositive) && lines == old(lines)
        && selected == old(selected) && quantity == old(quantity)
      ensures old(selected).Some? && old(quantity) > 0 ==>
        notice == None && lines == Added(old(lines), old(selected).value, old(quantity))
        && selected == None && quantity == 1
      ensures form == old(form)
    {
      if selected.None? {
        notice := Some(SelectProduct);
      } else if quantity <= 0 {
        notice := Some(QuantityNotPositive);
      } else {
        lines := Added(lines, selected.value, quantity);
        selected := None;
        quantity := 1;
        notice := None;
      }
    }

    /** `handleRemoveItem`: the other lines, in order. */
    method RemoveItem(productId: int)
      modifies this
      ensures lines == Filter(old(lines), ProductIdIsNot(productId))
      ensures form == old(form) && selected == old(selected) && quantity == old(quantity)
    {
      lines := Filter(lines, ProductIdIsNot(productId));
    }

    /**
     * `handleSubmit`. No lines, or no warehouse, is refused before any
     * request; otherwise the payload carries the form, the lines and
     * `calculateTotal()`. `accepted` is the outcome of the create request:
     * on success the form and lines are reset, on failure they stay.
     */
    method Submit(accepted: bool) returns (notice: Notice, payload: Option<OrderPayload>)
      modifies this
      ensures old(lines) == [] ==> notice == AddProduct && payload == None
      ensures old(lines) != [] && old(form).warehouseId == "" ==> notice == SelectWarehouse && payload == None
      ensures payload.Some? <==> old(lines) != [] && old(form).warehouseId != ""
      ensures payload.Some? ==> payload.value == OrderPayload(old(form), PayloadItems(old(lines)), LinesTotal(old(lines)))
      ensures payload.Some? ==> (notice == OrderCreated <==> accepted)
      ensures notice == OrderCreated ==> form == InitialForm && lines == []
      ensures notice != OrderCreated ==> form == old(form) && lines == old(lines)
      ensures selected == old(selected) && quantity == old(quantity)
    {
      payload := None;
      if |lines| == 0 {
        notice := AddProduct;
      } else if form.warehouseId == "" {
        notice := SelectWarehouse;
      } else {
        payload := Some(OrderPayload(form, PayloadItems(lines), LinesTotal(lines)));
        if accepted {
          notice := OrderCreated;
          form := InitialForm;
          lines := [];
        } else {
          notice := CreateFailed;
        }
      }
    }
  }

  /**
   * Adding a listed product raises that line's quantity by the entered
   * amount and keeps the length; adding a new one appends it with the
   * product's price and the entered quantity.
   */
  lemma AddedEffect(lines: seq<OrderLine>, p: Product, quantity: int)
    ensures Listed(lines, p.id) ==>
      |Added(lines, p, quantity)| == |lines| &&
      forall i :: 0 <= i < |lines| ==>
        Added(lines, p, quantity)[i]
          == if lines[i].productId == p.id then lines[i].(quantity := lines[i].quantity + quantity) else lines[i]
    ensures !Listed(lines, p.id) ==> Added(lines, p, quantity) == lines + [OrderLine(p.id, p.name, p.price, quantity)]
  {
  }

  /** Adding and removing keep one line per product. */
  lemma EditsKeepProductsUnique(lines: seq<OrderLine>, p: Product, quantity: int, productId: int)
    requires UniqueBy(lines, ProductIdOf)
    ensures UniqueBy(Added(lines, p, quantity), ProductIdOf)
    ensures UniqueBy(Filter(lines, ProductIdIsNot(productId)), ProductIdOf)
  {
    FilterUniqueBy(lines, ProductIdIsNot(productId), ProductIdOf);
  }

  /**
   * On lines with unique products, adding `quantity` units of `p` adds
   * quantity × the price of the line it lands on: the stored price of a
   * listed product, which a reloaded catalogue may have changed since, or
   * else the product's price.
   */
  lemma AddedTotal(lines: seq<OrderLine>, p: Product, quantity: int)
    requires UniqueBy(lines, ProductIdOf)
    ensures LinesTotal(Added(lines, p, quantity)) == LinesTotal(lines) +
      (if Listed(lines, p.id) then lines[FirstIndex(lines, (l: OrderLine) => l.productId == p.id)].price
       else p.price) * quantity
  {
    if Listed(lines, p.id) {
      var k := FirstIndex(lines, (l: OrderLine) => l.productId == p.id);
      var line := lines[k].(quantity := lines[k].quantity + quantity);
      AddedAtLine(lines, p, quantity, k);
      SumOfUpdate(lines, k, line, LineAmount);
      LineAmountGrows(lines[k], quantity);
    } else {
      var line := OrderLine(p.id, p.name, p.price, quantity);
      SumOfAppend(lines, [line], LineAmount);
      assert SumOf([line], LineAmount) == SumOf([], LineAmount) + LineAmount(line);
    }
  }

  /** With unique products, adding to a listed product rewrites that one line. */
  lemma AddedAtLine(lines: seq<OrderLine>, p: Product, quantity: int, k: int)
    requires UniqueBy(lines, ProductIdOf) && 0 <= k < |lines| && lines[k].productId == p.id
    ensures Added(lines, p, quantity) == lines[k := lines[k].(quantity := lines[k].quantity + quantity)]
  {
    forall i | 0 <= i < |lines| && i != k
      ensures lines[i].productId != p.id
    {
      assert ProductIdOf(lines[i]) != ProductIdOf(lines[k]);
    }
  }

  lemma LineAmountGrows(line: OrderLine, quantity: int)
    ensures LineAmount(line.(quantity := line.quantity + quantity)) == LineAmount(line) + line.price * quantity
  {
    assert line.price * (line.quantity + quantity) == line.price * line.quantity + line.price * quantity;
  }

  /** `calculateTotal` of no lines is 0, and the payload's total is Σ price × quantity over its own items. */
  lemma PayloadTotal(lines: seq<OrderLine>)
    ensures LinesTotal([]) == 0
    ensures LinesTotal(lines) == SumOf(PayloadItems(lines), (it: PayloadItem) => it.price * it.quantity)
  {
    PayloadTotalPrefix(lines);
  }

  lemma {:induction false} PayloadTotalPrefix(lines: seq<OrderLine>)
    ensures LinesTotal(lines) == SumOf(PayloadItems(lines), (it: PayloadItem) => it.price * it.quantity)
  {
    if lines != [] {
      var n := |lines| - 1;
      assert PayloadItems(lines)[..n] == PayloadItems(lines[..n]);
      PayloadTotalPrefix(lines[..n]);
    }
  }
}
