/** The product catalogue: listing, a unique SKU, a required supplier and a soft delete. */
module ProductService {
  import opened Common
  import opened Text
  import opened Catalogue
  import opened Store

  function SkuOf(p: Product): string { p.profile.sku }

  /** Non-null and non-empty, as `s != null && !s.isEmpty()`. */
  predicate Given(s: Option<string>) { s.Some? && |s.value| > 0 }

  /** The query `getAllProducts` runs. */
  datatype Listing = ByName(keyword: string) | ByCategory(category: string) | Everything

  function SelectListing(category: Option<string>, keyword: Option<string>): Listing
  {
    if Given(keyword) then ByName(keyword.value)
    else if Given(category) then ByCategory(category.value)
    else Everything
  }

  /** The products a listing returns, before paging: `name LIKE %keyword%`, category equality, or all. */
  function Listed(products: map<Id, Product>, l: Listing): set<Id>
  {
    match l
    case ByName(keyword) => set id | id in products && Includes(products[id].profile.name, keyword)
    case ByCategory(category) => set id | id in products && products[id].profile.category == Some(category)
    case Everything => products.Keys
  }

  /** `getAllProducts`. */
  function GetAllProducts(products: map<Id, Product>, category: Option<string>, keyword: Option<string>): set<Id>
  {
    Listed(products, SelectListing(category, keyword))
  }

  /**
   * A non-empty keyword wins over any category; an empty keyword counts as none;
   * with neither, every product is listed, inactive ones included.
   */
  lemma ListingPrecedence(products: map<Id, Product>, category: Option<string>, keyword: Option<string>, id: Id)
    ensures GetAllProducts(products, category, keyword) <= products.Keys
    ensures Given(keyword) ==>
      (id in GetAllProducts(products, category, keyword) <==>
         id in products && Includes(products[id].profile.name, keyword.value))
    ensures !Given(keyword) && Given(category) ==>
      (id in GetAllProducts(products, category, keyword) <==>
         id in products && products[id].profile.category == category)
    ensures !Given(keyword) && !Given(category) ==> GetAllProducts(products, category, keyword) == products.Keys
    ensures Given(keyword) ==> GetAllProducts(products, category, keyword) == GetAllProducts(products, None, keyword)
  {
  }

  /** `createProduct`: the SKU is checked before the supplier; a new product is "ACTIVE". */
  method CreateProduct(db: Database, profile: ProductProfile, supplierId: Id) returns (r: Result<Id>)
    requires db.Valid()
    modifies db`products, db`nextId
    ensures db.Valid()
    ensures KeyTaken(old(db.products), SkuOf, profile.sku) ==>
      r == Err(Business("Product with SKU " + profile.sku + " already exists"))
    ensures !KeyTaken(old(db.products), SkuOf, profile.sku) && supplierId !in db.suppliers ==>
      r == Err(NotFound("Supplier not found"))
    ensures r.Ok? <==> !KeyTaken(old(db.products), SkuOf, profile.sku) && supplierId in db.suppliers
    ensures r.Err? ==> db.products == old(db.products) && db.nextId == old(db.nextId)
    ensures r.Ok? ==>
      && r.value !in old(db.products)
      && db.products == old(db.products)[r.value := Product(profile, Some(supplierId), "ACTIVE")]
    ensures old(UniqueKeys(db.products, SkuOf)) ==> UniqueKeys(db.products, SkuOf)
  {
    if KeyTaken(db.products, SkuOf, profile.sku) {
      return Err(Business("Product with SKU " + profile.sku + " already exists"));
    }
    if supplierId !in db.suppliers {
      return Err(NotFound("Supplier not found"));
    }
    var p := Product(profile, Some(supplierId), "ACTIVE");
    var id := db.nextId;
    if UniqueKeys(db.products, SkuOf) {
      InsertKeepsUnique(db.products, SkuOf, id, p);
    }
    db.products := db.products[id := p];
    db.nextId := db.nextId + 1;
    r := Ok(id);
  }

  /** `updateProduct`: existence, then SKU collision, then supplier; the status is never touched. */
  method UpdateProduct(db: Database, id: Id, profile: ProductProfile, supplierId: Id) returns (r: Result<Product>)
    requires db.Valid()
    modifies db`products
    ensures db.Valid()
    ensures id !in old(db.products) ==> r == Err(NotFound("Product not found"))
    ensures id in old(db.products) && old(db.products)[id].profile.sku != profile.sku
            && KeyTaken(old(db.products), SkuOf, profile.sku) ==>
      r == Err(Business("Product with SKU " + profile.sku + " already exists"))
    ensures id in old(db.products)
            && (old(db.products)[id].profile.sku == profile.sku || !KeyTaken(old(db.products), SkuOf, profile.sku))
            && supplierId !in db.suppliers ==>
      r == Err(NotFound("Supplier not found"))
    ensures r.Ok? <==>
      && id in old(db.products)
      && (old(db.products)[id].profile.sku == profile.sku || !KeyTaken(old(db.products), SkuOf, profile.sku))
      && supplierId in db.suppliers
    ensures r.Err? ==> db.products == old(db.products)
    ensures r.Ok? ==>
      && r.value == Product(profile, Some(supplierId), old(db.products)[id].status)
      && db.products == old(db.products)[id := r.value]
    ensures old(UniqueKeys(db.products, SkuOf)) ==> UniqueKeys(db.products, SkuOf)
  {
    if id !in db.products {
      return Err(NotFound("Product not found"));
    }
    var p := db.products[id];
    if p.profile.sku != profile.sku && KeyTaken(db.products, SkuOf, profile.sku) {
      return Err(Business("Product with SKU " + profile.sku + " already exists"));
    }
    if supplierId !in db.suppliers {
      return Err(NotFound("Supplier not found"));
    }
    var p' := p.(profile := profile, supplier := Some(supplierId));
    if UniqueKeys(db.products, SkuOf) {
      ReplaceKeepsUnique(db.products, SkuOf, id, p');
    }
    db.products := db.products[id := p'];
    r := Ok(p');
  }

  /** `deleteProduct`: a soft delete; the product stays and is still listed. */
  method DeleteProduct(db: Database, id: Id) returns (r: Result<Product>)
    requires db.Valid()
    modifies db`products
    ensures db.Valid()
    ensures r.Err? <==> id !in old(db.products)
    ensures r.Err? ==> r == Err(NotFound("Product not found")) && db.products == old(db.products)
    ensures r.Ok? ==>
      && r.value == old(db.products)[id].(status := "INACTIVE")
      && db.products == old(db.products)[id := r.value]
      && db.products.Keys == old(db.products).Keys
  {
    if id !in db.products {
      return Err(NotFound("Product not found"));
    }
    var p := db.products[id].(status := "INACTIVE");
    db.products := db.products[id := p];
    r := Ok(p);
  }
}
