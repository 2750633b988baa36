/** The `product` slice of the Redux store and its reducers, as in-place updates of the slice state. */
module ProductSlice {
  import opened Common
  import opened Lists
  import opened ClientRecords

  datatype ProductState = ProductState(
    products: seq<Entity>,
    totalPages: int,
    totalElements: int,
    currentPage: int,
    isLoading: bool,
    error: Option<string>)

  class ProductStore {
    var products: seq<Entity>
    var totalPages: int
    var totalElements: int
    var currentPage: int
    var isLoading: bool
    var error: Option<string>

    function State(): ProductState
      reads this
    {
      ProductState(products, totalPages, totalElements, currentPage, isLoading, error)
    }

    /** `initialState`. */
    constructor ()
      ensures State() == ProductState([], 0, 0, 0, false, None)
    {
      products := [];
      totalPages := 0;
      totalElements := 0;
      currentPage := 0;
      isLoading := false;
      error := None;
    }

    /** `clearError`: the error goes, nothing else changes. */
    method ClearError()
      modifies this
      ensures State() == old(State()).(error := None)
    {
      error := None;
    }

    /** `fetchProducts.pending` and `searchProducts.pending`: loading, with the old list and the old error kept. */
    method Pending()
      modifies this
      ensures State() == old(State()).(isLoading := true)
    {
      isLoading := true;
    }

    /** `fetchProducts.fulfilled`: the page replaces the list and all three paging fields. */
    method FetchFulfilled(page: Page)
      modifies this
      ensures State() == old(State()).(isLoading := false, products := page.content,
                                       totalPages := page.totalPages, totalElements := page.totalElements,
                                       currentPage := page.number)
    {
      isLoading := false;
      products := page.content;
      totalPages := page.totalPages;
      totalElements := page.totalElements;
      currentPage := page.number;
    }

    /** `fetchProducts.rejected` and `searchProducts.rejected`: the error is stored and the list kept. */
    method Rejected(payload: string)
      modifies this
      ensures State() == old(State()).(isLoading := false, error := Some(payload))
    {
      isLoading := false;
      error := Some(payload);
    }

    /** `searchProducts.fulfilled`: the results replace the list; the paging fields stay as they were. */
    method SearchFulfilled(results: seq<Entity>)
      modifies this
      ensures State() == old(State()).(isLoading := false, products := results)
    {
      isLoading := false;
      products := results;
    }

    /** `createProduct.fulfilled`: `push`, so the new product is last and the others keep their places. */
    method CreateFulfilled(item: Entity)
      modifies this
      ensures State() == old(State()).(products := old(products) + [item])
      ensures |products| == |old(products)| + 1 && products[|products| - 1] == item
      ensures products[..|old(products)|] == old(products)
    {
      products := products + [item];
    }

    /** `updateProduct.fulfilled`: the first product with the same id is replaced, if there is one. */
    method UpdateFulfilled(item: Entity)
      modifies this
      ensures State() == old(State()).(products := ReplaceFirst(old(products), HasId(item.id), item))
      ensures |products| == |old(products)|
    {
      var index := FindIndex(products, HasId(item.id));
      if index != -1 {
        products := products[index := item];
      }
      ReplaceByIdEffect(old(products), item);
    }

    /** `deleteProduct.fulfilled`: every product with the id goes; the rest keep their order. */
    method DeleteFulfilled(id: int)
      modifies this
      ensures State() == old(State()).(products := Filter(old(products), LacksId(id)))
      ensures forall i :: 0 <= i < |products| ==> products[i].id != id
      ensures IsSubsequence(products, old(products))
    {
      products := Filter(products, LacksId(id));
      RemoveByIdEffect(old(products), id);
    }
  }
}
