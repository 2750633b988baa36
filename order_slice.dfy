/** The `order` slice of the Redux store: newest orders first, and no reducer that deletes. */
module OrderSlice {
  import opened Common
  import opened Lists
  import opened ClientRecords

  datatype OrderState = OrderState(
    orders: seq<Entity>,
    totalPages: int,
    totalElements: int,
    currentPage: int,
    isLoading: bool,
    error: Option<string>)

  class OrderStore {
    var orders: seq<Entity>
    var totalPages: int
    var totalElements: int
    var currentPage: int
    var isLoading: bool
    var error: Option<string>

    function State(): OrderState
      reads this
    {
      OrderState(orders, totalPages, totalElements, currentPage, isLoading, error)
    }

    /** `initialState`. */
    constructor ()
      ensures State() == OrderState([], 0, 0, 0, false, None)
    {
      orders := [];
      totalPages := 0;
      totalElements := 0;
      currentPage := 0;
      isLoading := false;
      error := None;
    }

    /** `clearError`. */
    method ClearError()
      modifies this
      ensures State() == old(State()).(error := None)
    {
      error := None;
    }

    /** `fetchOrders.pending`. */
    method FetchPending()
      modifies this
      ensures State() == old(State()).(isLoading := true)
    {
      isLoading := true;
    }

    /** `fetchOrders.fulfilled`: the only reducer that may shorten the list. */
    method FetchFulfilled(page: Page)
      modifies this
      ensures State() == old(State()).(isLoading := false, orders := page.content,
                                       totalPages := page.totalPages, totalElements := page.totalElements,
                                       currentPage := page.number)
    {
      isLoading := false;
      orders := page.content;
      totalPages := page.totalPages;
      totalElements := page.totalElements;
      currentPage := page.number;
    }

    /** `fetchOrders.rejected`. */
    method FetchRejected(payload: string)
      modifies this
      ensures State() == old(State()).(isLoading := false, error := Some(payload))
    {
      isLoading := false;
      error := Some(payload);
    }

    /** `createOrder.fulfilled`: `unshift`, so the new order comes first and the old list follows. */
    method CreateFulfilled(item: Entity)
      modifies this
      ensures State() == old(State()).(orders := [item] + old(orders))
      ensures orders[0] == item && orders[1..] == old(orders)
    {
      orders := [item] + orders;
    }

    /** `updateOrderStatus.fulfilled`: the first order with the same id is replaced; the length never changes. */
    method UpdateStatusFulfilled(item: Entity)
      modifies this
      ensures State() == old(State()).(orders := ReplaceFirst(old(orders), HasId(item.id), item))
      ensures |orders| == |old(orders)|
    {
      var index := FindIndex(orders, HasId(item.id));
      if index != -1 {
        orders := orders[index := item];
      }
      ReplaceByIdEffect(old(orders), item);
    }
  }
}
