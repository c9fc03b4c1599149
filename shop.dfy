/** The current shop view model: product list state, the persisted query
  * settings shared by every instance, loading, and optimistic favourites. */
module Shop {
  import opened Common
  import opened Model
  import opened Catalog

  /** The companion object's static copies of the query settings: they
    * outlive a view model and seed the next one. */
  class ShopPreferences {
    var sortOrder: SortOrder
    var filterCategory: Option<string>
    var searchQuery: string

    constructor()
      ensures sortOrder == Unsorted && filterCategory == None && searchQuery == ""
    {
      sortOrder := Unsorted;
      filterCategory := None;
      searchQuery := "";
    }
  }

  class ShopViewModel {
    const preferences: ShopPreferences
    var products: seq<Product>
    var isLoading: bool
    var errorMessage: Option<string>
    var filterCategory: Option<string>
    var searchQuery: string
    var sortOrder: SortOrder
    /** The signed-in user's `favorites` node: product id to stored product. */
    var favoriteStore: map<string, Product>

    /** A new instance starts from the stored settings and starts loading. */
    constructor(preferences: ShopPreferences, favoriteStore: map<string, Product>)
      ensures this.preferences == preferences
      ensures sortOrder == preferences.sortOrder && filterCategory == preferences.filterCategory
      ensures searchQuery == preferences.searchQuery
      ensures isLoading && errorMessage == None && products == []
      ensures this.favoriteStore == favoriteStore
    {
      this.preferences := preferences;
      products := [];
      sortOrder := preferences.sortOrder;
      filterCategory := preferences.filterCategory;
      searchQuery := preferences.searchQuery;
      this.favoriteStore := favoriteStore;
      isLoading := true;
      errorMessage := None;
    }

    /** `loadProducts`: refused while a load is running unless forced;
      * `started` tells whether a listener was attached. */
    method LoadProducts(forceReload: bool) returns (started: bool)
      modifies this
      ensures started <==> !(old(isLoading) && !forceReload)
      ensures started ==> isLoading && errorMessage == None
      ensures !started ==> isLoading == old(isLoading) && errorMessage == old(errorMessage)
      ensures products == old(products) && favoriteStore == old(favoriteStore)
      ensures filterCategory == old(filterCategory) && searchQuery == old(searchQuery)
      ensures sortOrder == old(sortOrder)
    {
      if isLoading && !forceReload {
        return false;
      }
      isLoading := true;
      errorMessage := None;
      started := true;
    }

    /** A snapshot arrived and the user's favourites node was read: each
      * non-null product, keyed and with its favourite flag recomputed from
      * the stored favourite ids, in order. */
    method OnProductsDelivered(entries: seq<ProductEntry>)
      modifies this
      ensures products == Delivered(entries, Some(old(favoriteStore).Keys))
      ensures forall p :: p in products ==> p.isFavorite == (p.id in favoriteStore)
      ensures !isLoading && errorMessage == old(errorMessage)
      ensures favoriteStore == old(favoriteStore) && filterCategory == old(filterCategory)
      ensures searchQuery == old(searchQuery) && sortOrder == old(sortOrder)
    {
      var favoriteIds := favoriteStore.Keys;
      var list: seq<Product> := [];
      var i := 0;
      while i < |entries|
        invariant 0 <= i <= |entries|
        invariant list + Delivered(entries[i..], Some(favoriteIds)) == Delivered(entries, Some(favoriteIds))
      {
        assert entries[i..][1..] == entries[i + 1..];
        ghost var rest := Delivered(entries[i + 1..], Some(favoriteIds));
        var e := entries[i];
        if e.product.Some? {
          var p := e.product.value;
          if p.id == "" {
            p := p.(id := e.key);
          }
          p := p.(isFavorite := p.id in favoriteIds);
          assert Delivered(entries[i..], Some(favoriteIds)) == [p] + rest;
          assert (list + [p]) + rest == list + ([p] + rest);
          list := list + [p];
        }
        i := i + 1;
      }
      products := list;
      isLoading := false;
      DeliveredMarksFavorites(entries, favoriteIds);
    }

    /** The favourites read threw: either reading the user's favourite ids, or
      * decoding a product of the delivery into `Product` (a wrong-typed
      * field), which throws inside the same handler. */
    method OnFavoritesReadFailed(message: string)
      modifies this
      ensures !isLoading && errorMessage == Some("Error loading products: " + message)
      ensures products == old(products) && favoriteStore == old(favoriteStore)
      ensures filterCategory == old(filterCategory) && searchQuery == old(searchQuery)
      ensures sortOrder == old(sortOrder)
    {
      isLoading := false;
      errorMessage := Some("Error loading products: " + message);
    }

    /** The products listener was cancelled. */
    method OnCancelled(message: string)
      modifies this
      ensures !isLoading && errorMessage == Some("Failed to load products: " + message)
      ensures products == old(products) && favoriteStore == old(favoriteStore)
      ensures filterCategory == old(filterCategory) && searchQuery == old(searchQuery)
      ensures sortOrder == old(sortOrder)
    {
      isLoading := false;
      errorMessage := Some("Failed to load products: " + message);
    }

    /** Each setter stores its value both in the state and in the shared
      * preferences. */
    method SetFilterCategory(category: Option<string>)
      modifies this, preferences
      ensures filterCategory == category && preferences.filterCategory == category
      ensures preferences.sortOrder == old(preferences.sortOrder)
      ensures preferences.searchQuery == old(preferences.searchQuery)
      ensures products == old(products) && isLoading == old(isLoading)
      ensures errorMessage == old(errorMessage) && searchQuery == old(searchQuery)
      ensures sortOrder == old(sortOrder) && favoriteStore == old(favoriteStore)
    {
      preferences.filterCategory := category;
      filterCategory := category;
    }

    method SetSearchQuery(query: string)
      modifies this, preferences
      ensures searchQuery == query && preferences.searchQuery == query
      ensures preferences.sortOrder == old(preferences.sortOrder)
      ensures preferences.filterCategory == old(preferences.filterCategory)
      ensures products == old(products) && isLoading == old(isLoading)
      ensures errorMessage == old(errorMessage) && filterCategory == old(filterCategory)
      ensures sortOrder == old(sortOrder) && favoriteStore == old(favoriteStore)
    {
      preferences.searchQuery := query;
      searchQuery := query;
    }

    method SetSortOrder(order: SortOrder)
      modifies this, preferences
      ensures sortOrder == order && preferences.sortOrder == order
      ensures preferences.filterCategory == old(preferences.filterCategory)
      ensures preferences.searchQuery == old(preferences.searchQuery)
      ensures products == old(products) && isLoading == old(isLoading)
      ensures errorMessage == old(errorMessage) && filterCategory == old(filterCategory)
      ensures searchQuery == old(searchQuery) && favoriteStore == old(favoriteStore)
    {
      preferences.sortOrder := order;
      sortOrder := order;
    }

    method ResetSort()
      modifies this, preferences
      ensures sortOrder == Unsorted && preferences.sortOrder == Unsorted
      ensures preferences.filterCategory == old(preferences.filterCategory)
      ensures preferences.searchQuery == old(preferences.searchQuery)
      ensures products == old(products) && isLoading == old(isLoading)
      ensures errorMessage == old(errorMessage) && filterCategory == old(filterCategory)
      ensures searchQuery == old(searchQuery) && favoriteStore == old(favoriteStore)
    {
      preferences.sortOrder := Unsorted;
      sortOrder := Unsorted;
    }

    /** `getFilteredAndSortedProducts`, which changes nothing. */
    method FilteredAndSortedProducts() returns (r: seq<Product>)
      ensures r == FilteredAndSorted(products, filterCategory, searchQuery, sortOrder)
      ensures forall p :: p in r <==> p in products && Selected(p, filterCategory, searchQuery)
    {
      r := FilteredAndSorted(products, filterCategory, searchQuery, sortOrder);
      QueryCorrect(products, filterCategory, searchQuery, sortOrder);
    }

    /** `toggleFavorite`: the list is updated at once; the store write then
      * adds the product (flag set) or removes it, and a failed write sets the
      * flag of the matching products back. */
    method ToggleFavorite(productId: string, writeSucceeds: bool)
      modifies this
      ensures products == AfterToggle(old(products), productId, writeSucceeds)
      ensures favoriteStore ==
        (match FindById(old(products), productId)
         case Some(p) => if writeSucceeds then StoredFavorite(old(favoriteStore), productId, p)
                         else old(favoriteStore)
         case None => old(favoriteStore))
      ensures isLoading == old(isLoading) && errorMessage == old(errorMessage)
      ensures filterCategory == old(filterCategory) && searchQuery == old(searchQuery)
      ensures sortOrder == old(sortOrder)
    {
      var found := FindById(products, productId);
      if found.None? {
        return;
      }
      var p := found.value;
      products := SetFavorite(products, productId, !p.isFavorite);
      if writeSucceeds {
        favoriteStore := StoredFavorite(favoriteStore, productId, p);
      } else {
        products := SetFavorite(products, productId, p.isFavorite);
      }
    }
  }

  /** A failed favourite write leaves a consistent list exactly as it was. */
  lemma FailedToggleRestores(products: seq<Product>, productId: string)
    requires FlagAgrees(products, productId)
    requires FindById(products, productId).Some?
    ensures SetFavorite(products, productId, FindById(products, productId).value.isFavorite) == products
  {
    var p := FindById(products, productId).value;
    var r := SetFavorite(products, productId, p.isFavorite);
    forall i | 0 <= i < |r|
      ensures r[i] == products[i]
    {
      if products[i].id == productId {
        var k :| 0 <= k < |products| && products[k] == p;
      }
    }
  }
}
