/**
 * The product slice: an ordered table of products plus three scratch fields
 * the views use (a loading flag, an error message, a selected product), with
 * the catalogue's two stock operations besides the common record operations.
 * `Reduce` is the slice's reducer on state values; `ProductSlice` is the state
 * the reducers change in place, one method per reducer, each proved to leave
 * the state that `Reduce` computes.
 */
module Products {
  import opened Table

  /**
   * `price` and `cost` are carried along and never computed on by any
   * reducer; stock figures are unbounded integers.
   */
  datatype Product = Product(
    id: string,
    name: string,
    description: string,
    sku: string,
    categoryId: string,
    subCategoryId: string,
    price: real,
    cost: real,
    stockQuantity: int,
    minStockLevel: int,
    maxStockLevel: int,
    isActive: bool,
    imageUrl: Option<string>,
    tags: seq<string>,
    createdAt: string,
    updatedAt: string)

  /** The id a product is looked up by. */
  function Key(p: Product): string { p.id }

  datatype ProductState = ProductState(
    products: seq<Product>,
    loading: bool,
    error: Option<string>,
    selectedProduct: Option<Product>)

  const InitialState := ProductState([], false, None, None)

  /**
   * The slice's actions. `now` is the time the reducer reads from the clock
   * to stamp `updatedAt`.
   */
  datatype Action =
    | SetProducts(list: seq<Product>)
    | AddProduct(product: Product)
    | UpdateProduct(product: Product)
    | DeleteProduct(id: string)
    | IncreaseStock(productId: string, quantity: int, now: string)
    | DecreaseStock(productId: string, quantity: int, now: string)
    | ToggleProductStatus(id: string, now: string)
    | SetSelectedProduct(selected: Option<Product>)
    | SetLoading(loading: bool)
    | SetError(error: Option<string>)

  /** `Math.max` on two integers. */
  function Max(a: int, b: int): (r: int)
    ensures r >= a && r >= b
    ensures r == a || r == b
  {
    if a < b then b else a
  }

  /** The change `increaseStock` makes to the product it finds: no upper bound. */
  function Restock(quantity: int, now: string): (r: Product -> Product)
    ensures forall p: Product :: r(p).updatedAt == now && r(p).stockQuantity - p.stockQuantity == quantity
  {
    (p: Product) => p.(stockQuantity := p.stockQuantity + quantity, updatedAt := now)
  }

  /** The change `decreaseStock` makes to the product it finds: floored at zero. */
  function Destock(quantity: int, now: string): (r: Product -> Product)
    ensures forall p: Product :: r(p).updatedAt == now && r(p).stockQuantity >= 0
    ensures forall p: Product :: p.stockQuantity >= quantity ==> r(p).stockQuantity == p.stockQuantity - quantity
    ensures forall p: Product :: p.stockQuantity < quantity ==> r(p).stockQuantity == 0
  {
    (p: Product) => p.(stockQuantity := Max(0, p.stockQuantity - quantity), updatedAt := now)
  }

  /** The change `toggleProductStatus` makes to the product it finds. */
  function Toggle(now: string): (r: Product -> Product)
    ensures forall p: Product :: r(p).updatedAt == now && r(p).isActive != p.isActive
  {
    (p: Product) => p.(isActive := !p.isActive, updatedAt := now)
  }

  /**
   * The slice's reducer. Each scratch field changes only through its own
   * setter; the table changes only through the table actions, and only
   * `setProducts`, `addProduct` and `deleteProduct` change its length or the
   * id held at a position.
   */
  function Reduce(s: ProductState, a: Action): (r: ProductState)
    ensures !a.SetLoading? ==> r.loading == s.loading
    ensures !a.SetError? ==> r.error == s.error
    ensures !a.SetSelectedProduct? ==> r.selectedProduct == s.selectedProduct
    ensures a.SetSelectedProduct? || a.SetLoading? || a.SetError? ==> r.products == s.products
    ensures !a.SetProducts? && !a.AddProduct? && !a.DeleteProduct? ==>
      |r.products| == |s.products| &&
      forall j :: 0 <= j < |s.products| ==> r.products[j].id == s.products[j].id
  {
    match a
    case SetProducts(list) => s.(products := list)
    case AddProduct(p) => s.(products := s.products + [p])
    case UpdateProduct(p) => s.(products := ReplaceFirst(s.products, Key, p))
    case DeleteProduct(id) => s.(products := RemoveAll(s.products, Key, id))
    case IncreaseStock(id, q, now) =>
      s.(products := UpdateFirst(s.products, Key, id, Restock(q, now)))
    case DecreaseStock(id, q, now) =>
      s.(products := UpdateFirst(s.products, Key, id, Destock(q, now)))
    case ToggleProductStatus(id, now) =>
      s.(products := UpdateFirst(s.products, Key, id, Toggle(now)))
    case SetSelectedProduct(p) => s.(selectedProduct := p)
    case SetLoading(b) => s.(loading := b)
    case SetError(e) => s.(error := e)
  }

  class ProductSlice {
    var products: seq<Product>
    var loading: bool
    var error: Option<string>
    var selectedProduct: Option<Product>

    function State(): ProductState
      reads this
    {
      ProductState(products, loading, error, selectedProduct)
    }

    constructor ()
      ensures State() == InitialState
    {
      products, loading, error, selectedProduct := [], false, None, None;
    }

    method SetProducts(list: seq<Product>)
      modifies this
      ensures State() == Reduce(old(State()), Action.SetProducts(list))
    {
      products := list;
    }

    method AddProduct(product: Product)
      modifies this
      ensures State() == Reduce(old(State()), Action.AddProduct(product))
    {
      products := products + [product];
    }

    method UpdateProduct(product: Product)
      modifies this
      ensures State() == Reduce(old(State()), Action.UpdateProduct(product))
    {
      var index := FirstIndex(products, Key, product.id);
      if index.Some? {
        products := products[index.value := product];
      }
    }

    method DeleteProduct(id: string)
      modifies this
      ensures State() == Reduce(old(State()), Action.DeleteProduct(id))
    {
      products := RemoveAll(products, Key, id);
    }

    method IncreaseStock(productId: string, quantity: int, now: string)
      modifies this
      ensures State() == Reduce(old(State()), Action.IncreaseStock(productId, quantity, now))
    {
      ghost var before := products;
      var index := FirstIndex(products, Key, productId);
      if index.Some? {
        var p := products[index.value];
        products := products[index.value :=
          p.(stockQuantity := p.stockQuantity + quantity, updatedAt := now)];
        assert products[index.value] == Restock(quantity, now)(p);
      }
      UpdateFirstAt(before, Key, productId, Restock(quantity, now));
    }

    method DecreaseStock(productId: string, quantity: int, now: string)
      modifies this
      ensures State() == Reduce(old(State()), Action.DecreaseStock(productId, quantity, now))
    {
      ghost var before := products;
      var index := FirstIndex(products, Key, productId);
      if index.Some? {
        var p := products[index.value];
        products := products[index.value :=
          p.(stockQuantity := Max(0, p.stockQuantity - quantity), updatedAt := now)];
        assert products[index.value] == Destock(quantity, now)(p);
      }
      UpdateFirstAt(before, Key, productId, Destock(quantity, now));
    }

    method ToggleProductStatus(id: string, now: string)
      modifies this
      ensures State() == Reduce(old(State()), Action.ToggleProductStatus(id, now))
    {
      ghost var before := products;
      var index := FirstIndex(products, Key, id);
      if index.Some? {
        var p := products[index.value];
        products := products[index.value := p.(isActive := !p.isActive, updatedAt := now)];
        assert products[index.value] == Toggle(now)(p);
      }
      UpdateFirstAt(before, Key, id, Toggle(now));
    }

    method SetSelectedProduct(selected: Option<Product>)
      modifies this
      ensures State() == Reduce(old(State()), Action.SetSelectedProduct(selected))
    {
      selectedProduct := selected;
    }

    method SetLoading(b: bool)
      modifies this
      ensures State() == Reduce(old(State()), Action.SetLoading(b))
    {
      loading := b;
    }

    method SetError(e: Option<string>)
      modifies this
      ensures State() == Reduce(old(State()), Action.SetError(e))
    {
      error := e;
    }
  }

  /** `setProducts` replaces the table verbatim; the scratch fields stay. */
  lemma SetProductsReplaces(s: ProductState, list: seq<Product>)
    ensures var r := Reduce(s, SetProducts(list));
      r.products == list &&
      r.loading == s.loading && r.error == s.error && r.selectedProduct == s.selectedProduct
  {
  }

  /**
   * `addProduct` appends without a duplicate check: the table grows by one,
   * the earlier records stay, the last record is the payload, and if the id
   * was already present, lookups of it still stop at the earlier record.
   */
  lemma AddProductAppends(s: ProductState, p: Product)
    ensures var r := Reduce(s, AddProduct(p));
      |r.products| == |s.products| + 1 &&
      r.products[..|s.products|] == s.products &&
      r.products[|s.products|] == p &&
      r.loading == s.loading && r.error == s.error && r.selectedProduct == s.selectedProduct
    ensures var r := Reduce(s, AddProduct(p));
      FirstIndex(r.products, Key, p.id) ==
        if FirstIndex(s.products, Key, p.id).Some? then FirstIndex(s.products, Key, p.id)
        else Some(|s.products|)
  {
    FirstIndexAppend(s.products, Key, p, p.id);
  }

  /**
   * `updateProduct` replaces the first record with the payload's id by the
   * payload and changes no other position; with the id absent nothing changes.
   */
  lemma UpdateProductReplacesFirst(s: ProductState, p: Product)
    ensures var r := Reduce(s, UpdateProduct(p));
      |r.products| == |s.products| &&
      r.loading == s.loading && r.error == s.error && r.selectedProduct == s.selectedProduct
    ensures Absent(s.products, Key, p.id) ==> Reduce(s, UpdateProduct(p)) == s
    ensures FirstIndex(s.products, Key, p.id).Some? ==>
      var i := FirstIndex(s.products, Key, p.id).value;
      var r := Reduce(s, UpdateProduct(p));
      r.products[i] == p &&
      forall j :: 0 <= j < |s.products| && j != i ==> r.products[j] == s.products[j]
  {
    UpdateFirstAt(s.products, Key, p.id, _ => p);
  }

  /**
   * `deleteProduct` keeps exactly the records with another id, in order; it
   * changes nothing exactly when the id is absent, and deleting twice is
   * deleting once.
   */
  lemma DeleteProductFilters(s: ProductState, id: string)
    ensures var r := Reduce(s, DeleteProduct(id));
      r.products == RemoveAll(s.products, Key, id) &&
      Absent(r.products, Key, id) &&
      r.loading == s.loading && r.error == s.error && r.selectedProduct == s.selectedProduct
    ensures Reduce(s, DeleteProduct(id)) == s <==> Absent(s.products, Key, id)
    ensures Reduce(Reduce(s, DeleteProduct(id)), DeleteProduct(id)) == Reduce(s, DeleteProduct(id))
  {
    RemoveAllUnchanged(s.products, Key, id);
    RemoveAllIdempotent(s.products, Key, id);
  }

  /**
   * `increaseStock` adds the quantity to the first matching product's stock,
   * with no bound such as `maxStockLevel`, stamps it, and changes nothing else;
   * with the id absent nothing changes.
   */
  lemma IncreaseStockFirstOnly(s: ProductState, id: string, q: int, now: string)
    ensures var r := Reduce(s, IncreaseStock(id, q, now));
      |r.products| == |s.products| &&
      r.loading == s.loading && r.error == s.error && r.selectedProduct == s.selectedProduct
    ensures Absent(s.products, Key, id) ==> Reduce(s, IncreaseStock(id, q, now)) == s
    ensures FirstIndex(s.products, Key, id).Some? ==>
      var i := FirstIndex(s.products, Key, id).value;
      var r := Reduce(s, IncreaseStock(id, q, now));
      r.products[i].stockQuantity == s.products[i].stockQuantity + q &&
      r.products[i] == s.products[i].(stockQuantity := r.products[i].stockQuantity, updatedAt := now) &&
      forall j :: 0 <= j < |s.products| && j != i ==> r.products[j] == s.products[j]
  {
    UpdateFirstAt(s.products, Key, id, Restock(q, now));
  }

  /**
   * `decreaseStock` takes the quantity off the first matching product's stock
   * but never below zero, whatever the quantity, stamps it, and changes
   * nothing else; with the id absent nothing changes.
   */
  lemma DecreaseStockFirstOnly(s: ProductState, id: string, q: int, now: string)
    ensures var r := Reduce(s, DecreaseStock(id, q, now));
      |r.products| == |s.products| &&
      r.loading == s.loading && r.error == s.error && r.selectedProduct == s.selectedProduct
    ensures Absent(s.products, Key, id) ==> Reduce(s, DecreaseStock(id, q, now)) == s
    ensures FirstIndex(s.products, Key, id).Some? ==>
      var i := FirstIndex(s.products, Key, id).value;
      var r := Reduce(s, DecreaseStock(id, q, now));
      var stock := r.products[i].stockQuantity;
      stock >= 0 &&
      (s.products[i].stockQuantity - q >= 0 ==> stock == s.products[i].stockQuantity - q) &&
      (s.products[i].stockQuantity - q < 0 ==> stock == 0) &&
      r.products[i] == s.products[i].(stockQuantity := stock, updatedAt := now) &&
      forall j :: 0 <= j < |s.products| && j != i ==> r.products[j] == s.products[j]
  {
    UpdateFirstAt(s.products, Key, id, Destock(q, now));
  }

  /**
   * Increasing and then decreasing the same product by the same quantity
   * restores its stock exactly when that stock was not negative (a negative
   * stock comes back as zero); the only other trace is the second time stamp.
   */
  lemma StockRoundTrip(s: ProductState, id: string, q: int, t1: string, t2: string)
    ensures Absent(s.products, Key, id) ==>
      Reduce(Reduce(s, IncreaseStock(id, q, t1)), DecreaseStock(id, q, t2)) == s
    ensures FirstIndex(s.products, Key, id).Some? ==>
      var i := FirstIndex(s.products, Key, id).value;
      var p := s.products[i];
      Reduce(Reduce(s, IncreaseStock(id, q, t1)), DecreaseStock(id, q, t2)) ==
        s.(products := s.products[i := p.(stockQuantity := Max(0, p.stockQuantity), updatedAt := t2)])
    ensures FirstIndex(s.products, Key, id).Some? ==>
      var i := FirstIndex(s.products, Key, id).value;
      var r := Reduce(Reduce(s, IncreaseStock(id, q, t1)), DecreaseStock(id, q, t2));
      (r.products[i].stockQuantity == s.products[i].stockQuantity <==> s.products[i].stockQuantity >= 0)
  {
    var restored := (p: Product) => p.(stockQuantity := Max(0, p.stockQuantity), updatedAt := t2);
    UpdateFirstTwiceIs(s.products, Key, id, Restock(q, t1), Destock(q, t2), restored);
    UpdateFirstAt(s.products, Key, id, restored);
  }

  /**
   * `toggleProductStatus` flips `isActive` and stamps `updatedAt` on the first
   * record with the id only; with the id absent nothing changes.
   */
  lemma ToggleProductStatusFirstOnly(s: ProductState, id: string, now: string)
    ensures var r := Reduce(s, ToggleProductStatus(id, now));
      |r.products| == |s.products| &&
      r.loading == s.loading && r.error == s.error && r.selectedProduct == s.selectedProduct
    ensures Absent(s.products, Key, id) ==> Reduce(s, ToggleProductStatus(id, now)) == s
    ensures FirstIndex(s.products, Key, id).Some? ==>
      var i := FirstIndex(s.products, Key, id).value;
      var r := Reduce(s, ToggleProductStatus(id, now));
      r.products[i].isActive == !s.products[i].isActive &&
      r.products[i] == s.products[i].(isActive := r.products[i].isActive, updatedAt := now) &&
      forall j :: 0 <= j < |s.products| && j != i ==> r.products[j] == s.products[j]
  {
    UpdateFirstAt(s.products, Key, id, Toggle(now));
  }

  /**
   * Toggling the same id twice restores `isActive`: the only trace left is
   * the second time stamp on the first record with the id.
   */
  lemma ToggleProductStatusTwice(s: ProductState, id: string, t1: string, t2: string)
    ensures Absent(s.products, Key, id) ==>
      Reduce(Reduce(s, ToggleProductStatus(id, t1)), ToggleProductStatus(id, t2)) == s
    ensures FirstIndex(s.products, Key, id).Some? ==>
      var i := FirstIndex(s.products, Key, id).value;
      Reduce(Reduce(s, ToggleProductStatus(id, t1)), ToggleProductStatus(id, t2)) ==
        s.(products := s.products[i := s.products[i].(updatedAt := t2)])
  {
    var stamp := (p: Product) => p.(updatedAt := t2);
    UpdateFirstTwiceIs(s.products, Key, id, Toggle(t1), Toggle(t2), stamp);
    UpdateFirstAt(s.products, Key, id, stamp);
  }

  /** Every product in the table has a stock of zero or more. */
  predicate StockNonNegative(ps: seq<Product>) {
    forall j :: 0 <= j < |ps| ==> ps[j].stockQuantity >= 0
  }

  /**
   * The actions that bring in no negative stock: a loaded table, an added or
   * replacing record with a non-negative stock, or an increase by a
   * non-negative quantity. All other actions qualify unconditionally.
   */
  predicate BringsNoNegativeStock(a: Action) {
    match a
    case SetProducts(list) => StockNonNegative(list)
    case AddProduct(p) => p.stockQuantity >= 0
    case UpdateProduct(p) => p.stockQuantity >= 0
    case IncreaseStock(_, q, _) => q >= 0
    case _ => true
  }

  /**
   * A table whose stock is non-negative stays so under every action that
   * brings in no negative stock; `decreaseStock` is safe for any quantity.
   */
  lemma StockStaysNonNegative(s: ProductState, a: Action)
    requires StockNonNegative(s.products)
    requires BringsNoNegativeStock(a)
    ensures StockNonNegative(Reduce(s, a).products)
  {
    match a
    case DeleteProduct(id) =>
      var r := Reduce(s, a).products;
      forall j | 0 <= j < |r| ensures r[j].stockQuantity >= 0 {
        assert r[j] in s.products;
      }
    case _ =>
  }

  /** The three scratch setters each assign their own field and nothing else. */
  lemma ScratchSettersTouchOneField(
    s: ProductState, selected: Option<Product>, b: bool, e: Option<string>)
    ensures Reduce(s, SetSelectedProduct(selected)) == s.(selectedProduct := selected)
    ensures Reduce(s, SetLoading(b)) == s.(loading := b)
    ensures Reduce(s, SetError(e)) == s.(error := e)
  {
  }
}
