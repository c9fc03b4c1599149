/** The admin's product list: loading the products under their keys and
  * deleting one of them. */
module ManageProduct {
  import opened Common
  import opened Model
  import opened Catalog

  /** The list `loadProducts` builds: the decoded products in snapshot order,
    * each taking its key as id. */
  function LoadedProducts(entries: seq<ProductEntry>): (r: seq<Product>)
    decreases |entries|
  {
    if entries == [] then []
    else
      var e := entries[|entries| - 1];
      LoadedProducts(entries[..|entries| - 1]) + (if e.product.Some? then [e.product.value.(id := e.key)] else [])
  }

  /** Every decoded product is listed under its key, and nothing else is. */
  lemma {:induction false} LoadedProductsExactly(entries: seq<ProductEntry>)
    ensures forall i :: 0 <= i < |entries| && entries[i].product.Some? ==>
      entries[i].product.value.(id := entries[i].key) in LoadedProducts(entries)
    ensures forall p :: p in LoadedProducts(entries) ==>
      exists i :: 0 <= i < |entries| && entries[i].product.Some? && p == entries[i].product.value.(id := entries[i].key)
    ensures |LoadedProducts(entries)| <= |entries|
    decreases |entries|
  {
    if entries != [] {
      var n := |entries| - 1;
      var prefix := entries[..n];
      LoadedProductsExactly(prefix);
      assert forall i :: 0 <= i < n ==> prefix[i] == entries[i];
      forall p | p in LoadedProducts(entries)
        ensures exists i :: 0 <= i < |entries| && entries[i].product.Some? && p == entries[i].product.value.(id := entries[i].key)
      {
        if p !in LoadedProducts(prefix) {
          assert p == entries[n].product.value.(id := entries[n].key);
        }
      }
    }
  }

  /** The list after a delete: every product with the id is gone, the others
    * stay in their order. */
  function Remaining(products: seq<Product>, productId: string): (r: seq<Product>)
    ensures IsSubsequence(r, products)
    ensures forall p :: p in r ==> p.id != productId
    ensures forall p :: p in products && p.id != productId ==> p in r
  {
    if products == [] then []
    else if products[0].id == productId then Remaining(products[1..], productId)
    else [products[0]] + Remaining(products[1..], productId)
  }

  /** Deleting an id no listed product has keeps the list as it is. */
  lemma {:induction false} RemainingUnknownId(products: seq<Product>, productId: string)
    requires forall p :: p in products ==> p.id != productId
    ensures Remaining(products, productId) == products
  {
    if products != [] {
      assert products[0] in products;
      RemainingUnknownId(products[1..], productId);
    }
  }

  /** A second delete of the same id changes nothing. */
  lemma RemainingIdempotent(products: seq<Product>, productId: string)
    ensures Remaining(Remaining(products, productId), productId) == Remaining(products, productId)
  {
    RemainingUnknownId(Remaining(products, productId), productId);
  }

  /** The entries a read of the `products` node delivers for `store`: each
    * key once, every stored product under its key, and no decoded product
    * that is not stored. */
  predicate Lists(entries: seq<ProductEntry>, store: map<string, Product>)
  {
    (forall i, j :: 0 <= i < j < |entries| ==> entries[i].key != entries[j].key)
    && (forall i :: 0 <= i < |entries| && entries[i].product.Some? ==>
          entries[i].key in store && store[entries[i].key] == entries[i].product.value)
    && (forall k :: k in store ==> exists i :: 0 <= i < |entries| && entries[i].key == k && entries[i].product.Some?)
  }

  /** A reload of the store after a delete lists no product with that id,
    * and lists every other stored product under its key. */
  lemma ReloadAfterDelete(entries: seq<ProductEntry>, store: map<string, Product>, productId: string)
    requires Lists(entries, store - {productId})
    ensures forall p :: p in LoadedProducts(entries) ==> p.id != productId
    ensures forall k :: k in store && k != productId ==> store[k].(id := k) in LoadedProducts(entries)
  {
    LoadedProductsExactly(entries);
    forall k | k in store && k != productId
      ensures store[k].(id := k) in LoadedProducts(entries)
    {
      assert k in store - {productId};
      var i :| 0 <= i < |entries| && entries[i].key == k && entries[i].product.Some?;
      assert entries[i].product.value == store[k];
    }
  }

  datatype ManageProductUi = ManageProductUi(
    isLoading: bool,
    isProcessing: bool,
    products: seq<Product>,
    errorMessage: Option<string>)

  const InitialManageProductUi := ManageProductUi(false, false, [], None)

  const Deleted := "Product deleted successfully"

  class ManageProductViewModel {
    var ui: ManageProductUi
    /** The `products` node, by key. */
    var store: map<string, Product>

    constructor(store: map<string, Product>)
      ensures ui == InitialManageProductUi && this.store == store
    {
      ui := InitialManageProductUi;
      this.store := store;
    }

    /** `loadProducts`: the entries of the `products` node (`store`), in
      * snapshot order. A failed read, or a product that cannot be decoded,
      * throws before the list is replaced (`failure`, the exception's
      * message): the error is set and the list kept. */
    method LoadProducts(entries: seq<ProductEntry>, failure: Option<Option<string>>)
      requires Lists(entries, store)
      modifies this
      ensures store == old(store)
      ensures failure.None? ==> ui == old(ui).(isLoading := false, products := LoadedProducts(entries))
      ensures failure.Some? ==>
        ui == old(ui).(isLoading := false, errorMessage := Some("Failed to load products: " + failure.value.GetOr("null")))
    {
      ui := ui.(isLoading := true);
      if failure.Some? {
        ui := ui.(isLoading := false, errorMessage := Some("Failed to load products: " + failure.value.GetOr("null")));
        return;
      }
      var products: seq<Product> := [];
      var i := 0;
      while i < |entries|
        invariant 0 <= i <= |entries|
        invariant products == LoadedProducts(entries[..i])
      {
        assert entries[..i + 1][..i] == entries[..i];
        if entries[i].product.Some? {
          var p := entries[i].product.value;
          p := p.(id := entries[i].key);
          products := products + [p];
        }
        i := i + 1;
      }
      assert entries[..i] == entries;
      ui := ui.(isLoading := false, products := products);
    }

    /** `deleteProduct`: the stored product is removed and the list loses
      * every product with the id, with the success text placed in
      * `errorMessage`; a failed removal (`failure`) keeps both. Processing
      * ends in both cases. */
    method DeleteProduct(productId: string, failure: Option<Option<string>>)
      modifies this
      ensures failure.None? ==>
        store == old(store) - {productId}
        && ui == old(ui).(isProcessing := false, products := Remaining(old(ui).products, productId),
                          errorMessage := Some(Deleted))
      ensures failure.Some? ==>
        store == old(store)
        && ui == old(ui).(isProcessing := false,
                          errorMessage := Some("Failed to delete product: " + failure.value.GetOr("null")))
    {
      ui := ui.(isProcessing := true);
      if failure.Some? {
        ui := ui.(isProcessing := false, errorMessage := Some("Failed to delete product: " + failure.value.GetOr("null")));
        return;
      }
      store := store - {productId};
      ui := ui.(isProcessing := false, products := Remaining(ui.products, productId), errorMessage := Some(Deleted));
    }
  }
}
