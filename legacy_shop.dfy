/** The older shop view model: the same query, a load-once guard, settings
  * that live only in the instance, and a favourite toggle that also writes
  * the flag into the product node. */
module LegacyShop {
  import opened Common
  import opened Model
  import opened Catalog

  class LegacyShopViewModel {
    var products: seq<Product>
    var isLoading: bool
    var errorMessage: Option<string>
    var filterCategory: Option<string>
    var searchQuery: string
    var sortOrder: SortOrder
    var hasLoadedProducts: bool
    /** The user's `favorites` node: product id to stored product. */
    var favoriteStore: map<string, Product>
    /** The `favorite` child of each `products/{id}` node. */
    var favoriteFlags: map<string, bool>

    /** The initial state, after the first `loadProducts()` of `init`. */
    constructor(favoriteStore: map<string, Product>, favoriteFlags: map<string, bool>)
      ensures products == [] && isLoading && errorMessage == None
      ensures filterCategory == None && searchQuery == "" && sortOrder == Unsorted
      ensures !hasLoadedProducts
      ensures this.favoriteStore == favoriteStore && this.favoriteFlags == favoriteFlags
    {
      products := [];
      filterCategory := None;
      searchQuery := "";
      sortOrder := Unsorted;
      hasLoadedProducts := false;
      this.favoriteStore := favoriteStore;
      this.favoriteFlags := favoriteFlags;
      isLoading := true;
      errorMessage := None;
    }

    /** `loadProducts`: after a first delivery only a forced reload starts. */
    method LoadProducts(forceReload: bool) returns (started: bool)
      modifies this
      ensures started <==> !old(hasLoadedProducts) || forceReload
      ensures started ==> isLoading && errorMessage == None
      ensures !started ==> isLoading == old(isLoading) && errorMessage == old(errorMessage)
      ensures products == old(products) && hasLoadedProducts == old(hasLoadedProducts)
      ensures filterCategory == old(filterCategory) && searchQuery == old(searchQuery)
      ensures sortOrder == old(sortOrder)
      ensures favoriteStore == old(favoriteStore) && favoriteFlags == old(favoriteFlags)
    {
      if hasLoadedProducts && !forceReload {
        return false;
      }
      isLoading := true;
      errorMessage := None;
      started := true;
    }

    /** A snapshot arrived: the non-null products, keyed, flags as stored. */
    method OnProductsDelivered(entries: seq<ProductEntry>)
      modifies this
      ensures products == Delivered(entries, None)
      ensures !isLoading && hasLoadedProducts && errorMessage == old(errorMessage)
      ensures filterCategory == old(filterCategory) && searchQuery == old(searchQuery)
      ensures sortOrder == old(sortOrder)
      ensures favoriteStore == old(favoriteStore) && favoriteFlags == old(favoriteFlags)
    {
      var list: seq<Product> := [];
      var i := 0;
      while i < |entries|
        invariant 0 <= i <= |entries|
        invariant list + Delivered(entries[i..], None) == Delivered(entries, None)
      {
        assert entries[i..][1..] == entries[i + 1..];
        ghost var rest := Delivered(entries[i + 1..], None);
        var e := entries[i];
        if e.product.Some? {
          var p := e.product.value;
          if p.id == "" {
            p := p.(id := e.key);
          }
          assert Delivered(entries[i..], None) == [p] + rest;
          assert (list + [p]) + rest == list + ([p] + rest);
          list := list + [p];
        }
        i := i + 1;
      }
      products := list;
      isLoading := false;
      hasLoadedProducts := true;
    }

    /** The listener was cancelled: the error text is the database message. */
    method OnCancelled(message: string)
      modifies this
      ensures !isLoading && errorMessage == Some(message)
      ensures products == old(products) && hasLoadedProducts == old(hasLoadedProducts)
      ensures filterCategory == old(filterCategory) && searchQuery == old(searchQuery)
      ensures sortOrder == old(sortOrder)
      ensures favoriteStore == old(favoriteStore) && favoriteFlags == old(favoriteFlags)
    {
      isLoading := false;
      errorMessage := Some(message);
    }

    /** The setters change their own field only; nothing outlives the instance. */
    method SetFilterCategory(category: Option<string>)
      modifies this
      ensures filterCategory == category
      ensures products == old(products) && isLoading == old(isLoading)
      ensures errorMessage == old(errorMessage) && searchQuery == old(searchQuery)
      ensures sortOrder == old(sortOrder) && hasLoadedProducts == old(hasLoadedProducts)
      ensures favoriteStore == old(favoriteStore) && favoriteFlags == old(favoriteFlags)
    {
      filterCategory := category;
    }

    method SetSearchQuery(query: string)
      modifies this
      ensures searchQuery == query
      ensures products == old(products) && isLoading == old(isLoading)
      ensures errorMessage == old(errorMessage) && filterCategory == old(filterCategory)
      ensures sortOrder == old(sortOrder) && hasLoadedProducts == old(hasLoadedProducts)
      ensures favoriteStore == old(favoriteStore) && favoriteFlags == old(favoriteFlags)
    {
      searchQuery := query;
    }

    method SetSortOrder(order: SortOrder)
      modifies this
      ensures sortOrder == order
      ensures products == old(products) && isLoading == old(isLoading)
      ensures errorMessage == old(errorMessage) && filterCategory == old(filterCategory)
      ensures searchQuery == old(searchQuery) && hasLoadedProducts == old(hasLoadedProducts)
      ensures favoriteStore == old(favoriteStore) && favoriteFlags == old(favoriteFlags)
    {
      sortOrder := order;
    }

    method ResetSort()
      modifies this
      ensures sortOrder == Unsorted
      ensures products == old(products) && isLoading == old(isLoading)
      ensures errorMessage == old(errorMessage) && filterCategory == old(filterCategory)
      ensures searchQuery == old(searchQuery) && hasLoadedProducts == old(hasLoadedProducts)
      ensures favoriteStore == old(favoriteStore) && favoriteFlags == old(favoriteFlags)
    {
      sortOrder := Unsorted;
    }

    /** `getFilteredAndSortedProducts`, the same query as the current model. */
    method FilteredAndSortedProducts() returns (r: seq<Product>)
      ensures r == FilteredAndSorted(products, filterCategory, searchQuery, sortOrder)
      ensures forall p :: p in r <==> p in products && Selected(p, filterCategory, searchQuery)
    {
      r := FilteredAndSorted(products, filterCategory, searchQuery, sortOrder);
      QueryCorrect(products, filterCategory, searchQuery, sortOrder);
    }

    /** `toggleFavorite`: optimistic flip; then the favourites write and, only
      * if it succeeded, the product-node flag write; a failure of either
      * sets the matching products back. */
    method ToggleFavorite(productId: string, favoriteWriteSucceeds: bool, flagWriteSucceeds: bool)
      modifies this
      ensures products == AfterToggle(old(products), productId, favoriteWriteSucceeds && flagWriteSucceeds)
      ensures favoriteStore ==
        (match FindById(old(products), productId)
         case Some(p) => if favoriteWriteSucceeds then StoredFavorite(old(favoriteStore), productId, p)
                         else old(favoriteStore)
         case None => old(favoriteStore))
      ensures favoriteFlags ==
        (match FindById(old(products), productId)
         case Some(p) => if favoriteWriteSucceeds && flagWriteSucceeds then old(favoriteFlags)[productId := !p.isFavorite]
                         else old(favoriteFlags)
         case None => old(favoriteFlags))
      ensures isLoading == old(isLoading) && errorMessage == old(errorMessage)
      ensures filterCategory == old(filterCategory) && searchQuery == old(searchQuery)
      ensures sortOrder == old(sortOrder) && hasLoadedProducts == old(hasLoadedProducts)
    {
      var found := FindById(products, productId);
      if found.None? {
        return;
      }
      var p := found.value;
      // The optimistic flip, undone when either write fails.
      products := SetFavorite(products, productId, !p.isFavorite);
      if favoriteWriteSucceeds {
        favoriteStore := StoredFavorite(favoriteStore, productId, p);
      }
      if favoriteWriteSucceeds && flagWriteSucceeds {
        favoriteFlags := favoriteFlags[productId := !p.isFavorite];
      } else {
        products := SetFavorite(products, productId, p.isFavorite);
      }
    }
  }
}
