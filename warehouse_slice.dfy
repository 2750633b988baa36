/** The `warehouse` slice of the Redux store. */
module WarehouseSlice {
  import opened Common
  import opened Lists
  import opened ClientRecords

  datatype WarehouseState = WarehouseState(warehouses: seq<Entity>, isLoading: bool, error: Option<string>)

  class WarehouseStore {
    var warehouses: seq<Entity>
    var isLoading: bool
    var error: Option<string>

    function State(): WarehouseState
      reads this
    {
      WarehouseState(warehouses, isLoading, error)
    }

    /** `initialState`. */
    constructor ()
      ensures State() == WarehouseState([], false, None)
    {
      warehouses := [];
      isLoading := false;
      error := None;
    }

    /** `clearError`. */
    method ClearError()
      modifies this
      ensures State() == old(State()).(error := None)
    {
      error := None;
    }

    /** `fetchWarehouses.pending`. */
    method FetchPending()
      modifies this
      ensures State() == old(State()).(isLoading := true)
    {
      isLoading := true;
    }

    /** `fetchWarehouses.fulfilled`: `payload.content || []`, so a page without content empties the list. */
    method FetchFulfilled(content: Option<seq<Entity>>)
      modifies this
      ensures State() == old(State()).(isLoading := false,
                                       warehouses := if content.Some? then content.value else [])
    {
      isLoading := false;
      if content.Some? {
        warehouses := content.value;
      } else {
        warehouses := [];
      }
    }

    /** `fetchWarehouses.rejected`. */
    method FetchRejected(payload: string)
      modifies this
      ensures State() == old(State()).(isLoading := false, error := Some(payload))
    {
      isLoading := false;
      error := Some(payload);
    }

    /** `createWarehouse.fulfilled`: appended at the end. */
    method CreateFulfilled(item: Entity)
      modifies this
      ensures State() == old(State()).(warehouses := old(warehouses) + [item])
      ensures warehouses[..|old(warehouses)|] == old(warehouses) && warehouses[|warehouses| - 1] == item
    {
      warehouses := warehouses + [item];
    }

    /** `updateWarehouse.fulfilled`: the first warehouse with the same id is replaced, if there is one. */
    method UpdateFulfilled(item: Entity)
      modifies this
      ensures State() == old(State()).(warehouses := ReplaceFirst(old(warehouses), HasId(item.id), item))
      ensures |warehouses| == |old(warehouses)|
    {
      var index := FindIndex(warehouses, HasId(item.id));
      if index != -1 {
        warehouses := warehouses[index := item];
      }
      ReplaceByIdEffect(old(warehouses), item);
    }

    /** `deleteWarehouse.fulfilled`: every warehouse with the id goes; the rest keep their order. */
    method DeleteFulfilled(id: int)
      modifies this
      ensures State() == old(State()).(warehouses := Filter(old(warehouses), LacksId(id)))
      ensures forall i :: 0 <= i < |warehouses| ==> warehouses[i].id != id
    {
      warehouses := Filter(warehouses, LacksId(id));
      RemoveByIdEffect(old(warehouses), id);
    }
  }
}
