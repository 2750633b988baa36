/**
 * The shopping cart page: quantity steppers that never go below one,
 * removal, and the subtotal plus the flat shipping fee.
 * Prices are integers in đồng.
 */
module Cart {
  import opened Lists
  import opened Grouping

  datatype CartItem = CartItem(id: int, name: string, price: int, quantity: int, image: string)

  /** The flat shipping fee added to every cart. */
  const ShippingFee := 50000

  /** The cart the page starts with. */
  const InitialItems := [
    CartItem(1, "Samsung Galaxy S24", 25000000, 1, "phone.jpg"),
    CartItem(2, "Laptop Dell XPS 15", 45000000, 1, "laptop.jpg")
  ]

  function IdOf(item: CartItem): int
  {
    item.id
  }

  /** `(item) => item.id !== id` */
  function IdIsNot(id: int): CartItem -> bool
  {
    (item: CartItem) => item.id != id
  }

  function ItemAmount(item: CartItem): int
  {
    item.price * item.quantity
  }

  /** Every line holds at least one unit. */
  predicate AllAtLeastOne(items: seq<CartItem>)
  {
    forall i :: 0 <= i < |items| ==> items[i].quantity >= 1
  }

  /** The lines after `updateQuantity(id, delta)`. */
  function Stepped(items: seq<CartItem>, id: int, delta: int): (r: seq<CartItem>)
    ensures |r| == |items|
  {
    seq(|items|, i requires 0 <= i < |items| =>
      if items[i].id == id
      then items[i].(quantity := if items[i].quantity + delta < 1 then 1 else items[i].quantity + delta)
      else items[i])
  }

  /** `subtotal`: Σ price × quantity. */
  function Subtotal(items: seq<CartItem>): int
  {
    SumOf(items, ItemAmount)
  }

  /** `total`: the subtotal plus shipping. */
  function CartTotal(items: seq<CartItem>): int
  {
    Subtotal(items) + ShippingFee
  }

  class CartPage {
    var items: seq<CartItem>

    constructor ()
      ensures items == InitialItems
    {
      items := InitialItems;
    }

    /** `updateQuantity`: the steppers pass −1 and +1. */
    method UpdateQuantity(id: int, delta: int)
      modifies this
      ensures items == Stepped(old(items), id, delta)
    {
      items := Stepped(items, id, delta);
    }

    /** `removeItem`: the other lines, in order. */
    method RemoveItem(id: int)
      modifies this
      ensures items == Filter(old(items), IdIsNot(id))
    {
      items := Filter(items, IdIsNot(id));
    }
  }

  /** The initial cart has distinct ids and at least one unit per line: the base case of the cart's invariant. */
  lemma InitialCart()
    ensures UniqueBy(InitialItems, IdOf) && AllAtLeastOne(InitialItems)
  {
  }

  /**
   * Stepping changes only the lines with that id, each to
   * max(1, quantity + delta); the other lines stay as they were.
   */
  lemma SteppedEffect(items: seq<CartItem>, id: int, delta: int)
    ensures forall i :: 0 <= i < |items| && items[i].id != id ==> Stepped(items, id, delta)[i] == items[i]
    ensures forall i :: 0 <= i < |items| && items[i].id == id ==>
      Stepped(items, id, delta)[i].quantity == (if items[i].quantity + delta < 1 then 1 else items[i].quantity + delta)
      && Stepped(items, id, delta)[i] == items[i].(quantity := Stepped(items, id, delta)[i].quantity)
  {
  }

  /** Stepping and removing keep every quantity at least one and every id on one line. */
  lemma EditsKeepCartWellFormed(items: seq<CartItem>, id: int, delta: int, other: int)
    requires AllAtLeastOne(items) && UniqueBy(items, IdOf)
    ensures AllAtLeastOne(Stepped(items, id, delta)) && UniqueBy(Stepped(items, id, delta), IdOf)
    ensures AllAtLeastOne(Filter(items, IdIsNot(other))) && UniqueBy(Filter(items, IdIsNot(other)), IdOf)
  {
    FilterUniqueBy(items, IdIsNot(other), IdOf);
  }

  /**
   * On a cart with distinct ids, the line with `id` at position `k`: the
   * plus button adds its price to the subtotal, and the minus button on a
   * single unit changes nothing.
   */
  lemma StepperTotals(items: seq<CartItem>, k: int)
    requires UniqueBy(items, IdOf) && AllAtLeastOne(items) && 0 <= k < |items|
    ensures Subtotal(Stepped(items, items[k].id, 1)) == Subtotal(items) + items[k].price
    ensures items[k].quantity == 1 ==> Stepped(items, items[k].id, -1) == items
  {
    var id := items[k].id;
    var line := items[k].(quantity := items[k].quantity + 1);
    assert Stepped(items, id, 1) == items[k := line];
    SumOfUpdate(items, k, line, ItemAmount);
    assert ItemAmount(line) == items[k].price * items[k].quantity + items[k].price;
  }
}
