/**
 * The public shop page: the client-side filter over the loaded page of
 * products, the 1-based page number sent as a 0-based request of twelve,
 * and the stock badges.
 */
module Shop {
  import opened Lists
  import opened Text

  datatype ShopProduct = ShopProduct(name: string, sku: string, category: string, price: int, stockQuantity: int)

  /** The filter controls: the search box, the category select and the price slider. */
  datatype ShopFilter = ShopFilter(keyword: string, category: string, low: int, high: int)

  /** The controls as the page mounts. */
  const DefaultFilter := ShopFilter("", "ALL", 0, 10000000)

  const PageSize := 12

  predicate MatchesSearch(p: ShopProduct, keyword: string)
  {
    ContainsIgnoreCase(p.name, keyword) || ContainsIgnoreCase(p.sku, keyword)
  }

  predicate MatchesCategory(p: ShopProduct, category: string)
  {
    category == "ALL" || p.category == category
  }

  predicate MatchesPrice(p: ShopProduct, low: int, high: int)
  {
    low <= p.price <= high
  }

  /** The `products.filter` callback. */
  function Matches(f: ShopFilter): ShopProduct -> bool
  {
    (p: ShopProduct) => MatchesSearch(p, f.keyword) && MatchesCategory(p, f.category) && MatchesPrice(p, f.low, f.high)
  }

  /** `filteredProducts`. */
  function Shown(products: seq<ShopProduct>, f: ShopFilter): seq<ShopProduct>
  {
    Filter(products, Matches(f))
  }

  /** `productService.getAll(page - 1, 12)`: the request for UI page `page`. */
  function PageRequest(page: int): (r: (int, int))
    ensures r.1 == PageSize
    ensures r.0 + 1 == page
  {
    (page - 1, PageSize)
  }

  /** The "Low Stock" chip. */
  predicate LowStockBadge(p: ShopProduct)
  {
    p.stockQuantity < 10 && p.stockQuantity > 0
  }

  /** The "Out of Stock" chip; the cart button is disabled under the same condition. */
  predicate OutOfStockBadge(p: ShopProduct)
  {
    p.stockQuantity == 0
  }

  /**
   * A product is shown exactly when it is loaded and passes all three
   * tests, and the shown products keep their loaded order.
   */
  lemma ShownExactly(products: seq<ShopProduct>, f: ShopFilter)
    ensures forall p :: p in Shown(products, f) <==>
      p in products && MatchesSearch(p, f.keyword) && MatchesCategory(p, f.category) && MatchesPrice(p, f.low, f.high)
    ensures IsSubsequence(Shown(products, f), products)
  {
    FilterExactly(products, Matches(f));
  }

  /** With the controls as they mount, every product priced within 0..10 000 000 is shown. */
  lemma DefaultFilterShows(p: ShopProduct)
    requires 0 <= p.price <= 10000000
    ensures Matches(DefaultFilter)(p)
  {
    EmptyKeywordMatches(p.name);
  }

  /** UI page 1 asks for API page 0; consecutive UI pages ask for consecutive API pages. */
  lemma PageMapping(page: int)
    ensures PageRequest(1) == (0, 12)
    ensures PageRequest(page + 1).0 == PageRequest(page).0 + 1
  {
  }

  /**
   * At most one chip shows. For a non-negative stock: "Low Stock" iff
   * 1..9 units, "Out of Stock" (and a disabled button) iff none, and no
   * chip from 10 units up.
   */
  lemma BadgeRules(p: ShopProduct)
    ensures !(LowStockBadge(p) && OutOfStockBadge(p))
    ensures p.stockQuantity >= 0 ==>
      (LowStockBadge(p) <==> 1 <= p.stockQuantity <= 9) &&
      (!LowStockBadge(p) && !OutOfStockBadge(p) <==> p.stockQuantity >= 10)
  {
  }
}
