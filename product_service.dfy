/** Product catalogue operations (app/Services/ProductService.php): listing
    dispatch, lookup with not-found, creation with a default status, update of
    the supplied fields and deletion. */
module ProductService {
  import opened Wrappers
  import opened Php
  import opened Products
  import opened Errors
  import opened Store

  /* ---------------- getAllProducts ---------------- */

  /** The listing filters; `None` is an unset key. */
  datatype ProductFilters = ProductFilters(status: Option<string>, search: Option<string>)

  /** The repository query a listing dispatches to. */
  datatype ProductQuery = ActiveOnly | Search(term: string) | AllProducts

  /** `getAllProducts($filters)`: `status = active` wins over `search`, which
      wins over no filter. */
  function SelectProductQuery(filters: ProductFilters): (q: ProductQuery)
    ensures filters.status == Some(Active) ==> q == ActiveOnly
    ensures filters.status != Some(Active) && filters.search.Some? ==> q == Search(filters.search.value)
    ensures filters.status != Some(Active) && filters.search.None? ==> q == AllProducts
  {
    if filters.status.Some? && filters.status.value == Active then ActiveOnly
    else if filters.search.Some? then Search(filters.search.value)
    else AllProducts
  }

  /** A status filter other than "active" is ignored, as if it were unset. */
  lemma {:induction false} OtherStatusFiltersIgnored(status: string, search: Option<string>)
    requires status != Active
    ensures SelectProductQuery(ProductFilters(Some(status), search)) == SelectProductQuery(ProductFilters(None, search))
  {
    assert Some(status) != Some(Active);
  }

  /** Whether a product belongs to the listing of the active-only and the
      unfiltered queries; the search query's LIKE matching is not modelled. */
  predicate Listed(q: ProductQuery, p: Product)
    requires !q.Search?
  {
    q.AllProducts? || p.status == Active
  }

  /** The active-only listing can hold products that cannot be ordered: it
      filters on status alone, not on stock. */
  lemma ActiveListingIgnoresStock(p: Product)
    requires p.status == Active && p.stock <= 0
    ensures Listed(ActiveOnly, p) && !p.IsAvailable()
  {}

  /* ---------------- getProductById ---------------- */

  /** `getProductById($id)` */
  function GetProductById(products: map<int, Product>, id: int): (r: Result<Product, ServiceError>)
    ensures r.Success? <==> id in products
    ensures r.Success? ==> r.value == products[id]
    ensures r.Failure? ==> r.error == ProductNotFound(id) && r.error.IsNotFound()
  {
    if id in products then Success(products[id]) else Failure(ProductNotFound(id))
  }

  /** The not-found message carries the id: "Product with ID 999 not found.". */
  lemma {:induction false} NotFoundMessageNamesTheId()
    ensures GetProductById(map[], 999).error.Message() == "Product with ID 999 not found."
  {
    assert NatToString(9) == "9";
    assert NatToString(99) == NatToString(9) + "9";
    assert NatToString(999) == NatToString(99) + "9";
  }

  /* ---------------- createProduct ---------------- */

  /** The attributes `createProduct` receives; `None` is an unset key. */
  datatype ProductData = ProductData(
    name: string,
    description: Option<string>,
    price: int,
    stock: int,
    imageUrl: Option<string>,
    status: Option<string>)

  /** The data after the default is filled in: an unset status becomes "active",
      a given one is kept. */
  function WithDefaultStatus(data: ProductData): (d: ProductData)
    ensures d.status.Some?
    ensures data.status.Some? ==> d == data
    ensures data.status.None? ==> d == data.(status := Some(Active))
  {
    if data.status.None? then data.(status := Some(Active)) else data
  }

  /** `createProduct($data)`: inserts a row under the next auto-increment id. */
  method CreateProduct(db: Database, data: ProductData) returns (p: Product)
    requires db.Valid()
    modifies db
    ensures db.Valid()
    ensures p == Product(old(db.nextProductId), data.name, data.description, data.price, data.stock,
                         data.imageUrl, data.status.GetOr(Active))
    ensures p.id !in old(db.products) && db.products == old(db.products)[p.id := p]
    ensures GetProductById(db.products, p.id) == Success(p)
    ensures db.nextProductId == old(db.nextProductId) + 1 && db.orders == old(db.orders)
  {
    var filled := WithDefaultStatus(data);
    p := Product(db.nextProductId, filled.name, filled.description, filled.price, filled.stock,
                 filled.imageUrl, filled.status.value);
    db.products := db.products[p.id := p];
    db.nextProductId := db.nextProductId + 1;
  }

  /* ---------------- updateProduct ---------------- */

  /** The fillable attributes an update supplies; `None` is an absent key. */
  datatype ProductPatch = ProductPatch(
    name: Option<string>,
    description: Option<string>,
    price: Option<int>,
    stock: Option<int>,
    imageUrl: Option<string>,
    status: Option<string>)

  /** `$product->update($data)`: the supplied attributes replace the stored ones. */
  function Patched(p: Product, patch: ProductPatch): (q: Product)
    ensures q.id == p.id
    // a supplied attribute takes the supplied value
    ensures patch.name.Some? ==> q.name == patch.name.value
    ensures patch.description.Some? ==> q.description == patch.description
    ensures patch.price.Some? ==> q.price == patch.price.value
    ensures patch.stock.Some? ==> q.stock == patch.stock.value
    ensures patch.imageUrl.Some? ==> q.imageUrl == patch.imageUrl
    ensures patch.status.Some? ==> q.status == patch.status.value
    // an absent one keeps the stored value
    ensures patch.name.None? ==> q.name == p.name
    ensures patch.description.None? ==> q.description == p.description
    ensures patch.price.None? ==> q.price == p.price
    ensures patch.stock.None? ==> q.stock == p.stock
    ensures patch.imageUrl.None? ==> q.imageUrl == p.imageUrl
    ensures patch.status.None? ==> q.status == p.status
  {
    Product(p.id, patch.name.GetOr(p.name),
            if patch.description.Some? then patch.description else p.description,
            patch.price.GetOr(p.price), patch.stock.GetOr(p.stock),
            if patch.imageUrl.Some? then patch.imageUrl else p.imageUrl,
            patch.status.GetOr(p.status))
  }

  /** Applying the same update twice is applying it once. */
  lemma PatchIdempotent(p: Product, patch: ProductPatch)
    ensures Patched(Patched(p, patch), patch) == Patched(p, patch)
  {}

  /** An update that supplies nothing changes nothing. */
  lemma EmptyPatchChangesNothing(p: Product)
    ensures Patched(p, ProductPatch(None, None, None, None, None, None)) == p
  {}

  /** `updateProduct($id, $data)`: not-found leaves the table alone; otherwise
      only that row changes. */
  method UpdateProduct(db: Database, id: int, patch: ProductPatch) returns (r: Result<Product, ServiceError>)
    requires db.Valid()
    modifies db
    ensures db.Valid()
    ensures db.orders == old(db.orders) && db.nextProductId == old(db.nextProductId)
    ensures id !in old(db.products) ==> r == Failure(ProductNotFound(id)) && db.products == old(db.products)
    ensures id in old(db.products) ==>
      && r == Success(Patched(old(db.products)[id], patch))
      && db.products == old(db.products)[id := r.value]
  {
    var found := GetProductById(db.products, id);
    if found.Failure? {
      return Failure(found.error);
    }
    var updated := Patched(found.value, patch);
    db.products := db.products[id := updated];
    r := Success(updated);
  }

  /* ---------------- deleteProduct ---------------- */

  /** `deleteProduct($id)`: not-found leaves the table alone; otherwise exactly
      that row goes. */
  method DeleteProduct(db: Database, id: int) returns (r: Result<bool, ServiceError>)
    requires db.Valid()
    modifies db
    ensures db.Valid()
    ensures db.orders == old(db.orders) && db.nextProductId == old(db.nextProductId)
    ensures id !in old(db.products) ==> r == Failure(ProductNotFound(id)) && db.products == old(db.products)
    ensures id in old(db.products) ==> r == Success(true) && db.products == old(db.products) - {id}
    ensures GetProductById(db.products, id) == Failure(ProductNotFound(id))
  {
    var found := GetProductById(db.products, id);
    if found.Failure? {
      return Failure(found.error);
    }
    db.products := db.products - {id};
    r := Success(true);
  }
}
