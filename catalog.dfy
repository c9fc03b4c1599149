/** The shop catalogue: the product record, the category/search/sort query
  * both shop view models apply to their product list, and the shop screen's
  * own choices (sort labels, category chips, the "Clear All Filters" offer). */
module Catalog {
  import opened Common
  import opened Sorting
  import opened Model

  /** The shop's sort choices. */
  datatype SortOrder = Unsorted | NameAToZ | NameZToA | PriceLowToHigh | PriceHighToLow | ByRating

  // ----- the query ---------------------------------------------------------

  /** The category filter applies unless the selection is absent, empty or the
    * "More" chip. */
  predicate CategoryFilterActive(filterCategory: Option<string>)
  {
    filterCategory.Some? && filterCategory.value != "More" && filterCategory.value != ""
  }

  /** A product matches a category when it has one containing the filter text,
    * ignoring case. */
  predicate InCategory(p: Product, category: string)
  {
    p.category.Some? && ContainsIgnoreCase(p.category.value, category)
  }

  /** The lower-cased name contains the lower-cased query. */
  predicate NameMatches(p: Product, query: string)
  {
    Contains(Lower(p.name), Lower(query))
  }

  function ByCategory(products: seq<Product>, filterCategory: Option<string>): (r: seq<Product>)
  {
    if CategoryFilterActive(filterCategory) then
      Filter(products, p => InCategory(p, filterCategory.value))
    else products
  }

  function BySearch(products: seq<Product>, query: string): (r: seq<Product>)
  {
    if query != "" then Filter(products, p => NameMatches(p, query)) else products
  }

  /** The sort key of each order. */
  function SortKey(order: SortOrder): (r: Product -> Key)
  {
    match order
    case NameAToZ => (p: Product) => TextKey(p.name)
    case NameZToA => (p: Product) => TextKey(p.name)
    case PriceLowToHigh => (p: Product) => RealKey(p.price)
    case PriceHighToLow => (p: Product) => RealKey(p.price)
    case _ => (p: Product) => IntKey(p.rating)
  }

  predicate Descending(order: SortOrder)
  {
    order == NameZToA || order == PriceHighToLow || order == ByRating
  }

  function SortProducts(products: seq<Product>, order: SortOrder): (r: seq<Product>)
  {
    if order == Unsorted then products else SortBy(SortKey(order), Descending(order), products)
  }

  /** `getFilteredAndSortedProducts`: category filter, then search, then sort. */
  function FilteredAndSorted(products: seq<Product>, filterCategory: Option<string>,
                             query: string, order: SortOrder): (r: seq<Product>)
  {
    SortProducts(BySearch(ByCategory(products, filterCategory), query), order)
  }

  /** What the two filters keep, before sorting. */
  predicate Selected(p: Product, filterCategory: Option<string>, query: string)
  {
    (CategoryFilterActive(filterCategory) ==> InCategory(p, filterCategory.value))
    && (query != "" ==> NameMatches(p, query))
  }

  /** The filters keep, in their original order, exactly the selected products;
    * with no filter in force nothing is dropped. */
  lemma FilterStage(products: seq<Product>, filterCategory: Option<string>, query: string)
    ensures var f := BySearch(ByCategory(products, filterCategory), query);
      IsSubsequence(f, products)
      && (forall i :: 0 <= i < |f| ==> Selected(f[i], filterCategory, query))
      && (forall i :: 0 <= i < |products| && Selected(products[i], filterCategory, query) ==> products[i] in f)
      && (forall p :: p in f ==> p in products)
      && (!CategoryFilterActive(filterCategory) && query == "" ==> f == products)
  {
    var c := ByCategory(products, filterCategory);
    var f := BySearch(c, query);
    if !CategoryFilterActive(filterCategory) {
      SubsequenceReflexive(products);
    }
    if query == "" {
      SubsequenceReflexive(c);
    }
    SubsequenceTransitive(f, c, products);
    forall i | 0 <= i < |products| && Selected(products[i], filterCategory, query)
      ensures products[i] in f
    {
      assert products[i] in c;
      var j :| 0 <= j < |c| && c[j] == products[i];
    }
  }

  /** Each sort order gives its monotone key order; the unsorted order returns
    * its input. */
  lemma SortStageOrder(products: seq<Product>, order: SortOrder)
    ensures var r := SortProducts(products, order);
      (order == Unsorted ==> r == products)
      && (order == NameAToZ ==> forall i, j :: 0 <= i < j < |r| ==> !TextLess(r[j].name, r[i].name))
      && (order == NameZToA ==> forall i, j :: 0 <= i < j < |r| ==> !TextLess(r[i].name, r[j].name))
      && (order == PriceLowToHigh ==> forall i, j :: 0 <= i < j < |r| ==> r[i].price <= r[j].price)
      && (order == PriceHighToLow ==> forall i, j :: 0 <= i < j < |r| ==> r[i].price >= r[j].price)
      && (order == ByRating ==> forall i, j :: 0 <= i < j < |r| ==> r[i].rating >= r[j].rating)
  {
    if order != Unsorted {
      SortBySorted(SortKey(order), Descending(order), products);
    }
  }

  /** Sorting reorders and keeps products with equal keys in filtered order. */
  lemma SortStagePermutes(products: seq<Product>, order: SortOrder)
    ensures multiset(SortProducts(products, order)) == multiset(products)
    ensures forall k :: WithKey(SortKey(order), k, SortProducts(products, order))
                        == WithKey(SortKey(order), k, products)
  {
    if order != Unsorted {
      SortByCorrect(SortKey(order), Descending(order), products);
    }
  }

  /** The whole query: the result holds exactly the selected products, each as
    * often as in the catalogue, and is ordered by the chosen sort. */
  lemma QueryCorrect(products: seq<Product>, filterCategory: Option<string>, query: string, order: SortOrder)
    ensures var r := FilteredAndSorted(products, filterCategory, query, order);
      (forall p :: p in r <==> p in products && Selected(p, filterCategory, query))
      && multiset(r) == multiset(BySearch(ByCategory(products, filterCategory), query))
  {
    var f := BySearch(ByCategory(products, filterCategory), query);
    FilterStage(products, filterCategory, query);
    SortStagePermutes(f, order);
    var r := FilteredAndSorted(products, filterCategory, query, order);
    forall p
      ensures p in r <==> p in products && Selected(p, filterCategory, query)
    {
      assert p in r <==> p in multiset(r);
      assert p in f <==> p in multiset(f);
      if p in f {
        var i :| 0 <= i < |f| && f[i] == p;
      }
      if p in products && Selected(p, filterCategory, query) {
        var i :| 0 <= i < |products| && products[i] == p;
      }
    }
  }

  // ----- favourites in the product list -----------------------------------

  /** `products.find { it.id == id }`. */
  function FindById(products: seq<Product>, id: string): (r: Option<Product>)
    ensures r.Some? <==> exists i :: 0 <= i < |products| && products[i].id == id
    ensures r.Some? ==> r.value.id == id && r.value in products
  {
    if products == [] then None
    else if products[0].id == id then Some(products[0])
    else FindById(products[1..], id)
  }

  /** `find` returns the first product with the id. */
  lemma {:induction false} FindByIdFirst(products: seq<Product>, id: string, i: int)
    requires 0 <= i < |products| && products[i].id == id
    requires forall j :: 0 <= j < i ==> products[j].id != id
    ensures FindById(products, id) == Some(products[i])
  {
    if i > 0 {
      FindByIdFirst(products[1..], id, i - 1);
    }
  }

  /** The list with `isFavorite := v` on every product whose id is `id`. */
  function SetFavorite(products: seq<Product>, id: string, v: bool): (r: seq<Product>)
    ensures |r| == |products|
    ensures forall i :: 0 <= i < |r| ==>
      r[i] == (if products[i].id == id then products[i].(isFavorite := v) else products[i])
  {
    if products == [] then []
    else [if products[0].id == id then products[0].(isFavorite := v) else products[0]]
         + SetFavorite(products[1..], id, v)
  }

  /** A second flag write overrides the first. */
  lemma SetFavoriteOverrides(products: seq<Product>, id: string, a: bool, b: bool)
    ensures SetFavorite(SetFavorite(products, id, a), id, b) == SetFavorite(products, id, b)
  {
    var r, s := SetFavorite(SetFavorite(products, id, a), id, b), SetFavorite(products, id, b);
    assert forall i :: 0 <= i < |r| ==> r[i] == s[i];
  }

  /** The optimistic update of `toggleFavorite`: the first product with the id
    * decides the new flag; an unknown id changes nothing. */
  function Toggled(products: seq<Product>, id: string): (r: seq<Product>)
  {
    match FindById(products, id)
    case None => products
    case Some(p) => SetFavorite(products, id, !p.isFavorite)
  }

  /** The list after `toggleFavorite`: the optimistic flip of the first product's
    * flag, followed by the revert to its old flag when a write was not `written`. */
  function AfterToggle(products: seq<Product>, id: string, written: bool): (r: seq<Product>)
  {
    match FindById(products, id)
    case None => products
    case Some(p) =>
      var flipped := SetFavorite(products, id, !p.isFavorite);
      if written then flipped else SetFavorite(flipped, id, p.isFavorite)
  }

  /** A completed toggle is the flip; a failed one writes back the old flag of
    * the first product with the id. */
  lemma AfterToggleOutcome(products: seq<Product>, id: string, written: bool)
    ensures written ==> AfterToggle(products, id, written) == Toggled(products, id)
    ensures !written && FindById(products, id).Some? ==>
      AfterToggle(products, id, written) == SetFavorite(products, id, FindById(products, id).value.isFavorite)
  {
    var found := FindById(products, id);
    if found.Some? {
      SetFavoriteOverrides(products, id, !found.value.isFavorite, found.value.isFavorite);
    }
  }

  /** All products carrying `id` agree on their flag (ids are keys). */
  predicate FlagAgrees(products: seq<Product>, id: string)
  {
    forall i, j ::
      (0 <= i < |products| && 0 <= j < |products| && products[i].id == id && products[j].id == id)
      ==> products[i].isFavorite == products[j].isFavorite
  }

  /** `toggleFavorite` flips the flag of exactly the products with that id and
    * changes nothing else, neither length nor order. */
  lemma ToggleFlipsExactly(products: seq<Product>, id: string)
    requires FlagAgrees(products, id)
    ensures var r := Toggled(products, id);
      |r| == |products|
      && forall i :: 0 <= i < |r| ==>
        r[i] == (if products[i].id == id then products[i].(isFavorite := !products[i].isFavorite)
                 else products[i])
  {
  }

  /** Toggling twice restores the list. */
  lemma ToggleTwiceRestores(products: seq<Product>, id: string)
    requires FlagAgrees(products, id)
    ensures Toggled(Toggled(products, id), id) == products
  {
    var r := Toggled(products, id);
    ToggleFlipsExactly(products, id);
    assert FlagAgrees(r, id);
    ToggleFlipsExactly(r, id);
    var rr := Toggled(r, id);
    assert forall i :: 0 <= i < |rr| ==> rr[i] == products[i];
  }

  /** The favourites node after the toggle's write for product `p`: a copy
    * flagged as favourite is stored when it was not one, removed otherwise. */
  function StoredFavorite(store: map<string, Product>, productId: string, p: Product): (r: map<string, Product>)
    ensures !p.isFavorite ==> productId in r && r[productId].isFavorite && r[productId].(isFavorite := p.isFavorite) == p
    ensures p.isFavorite ==> productId !in r
    ensures forall k :: k != productId ==> (k in r <==> k in store) && (k in r ==> r[k] == store[k])
  {
    if !p.isFavorite then store[productId := p.(isFavorite := true)] else store - {productId}
  }

  // ----- product delivery --------------------------------------------------

  /** One child of the `products` node: its key and the decoded product (`null`
    * when the node holds no value). */
  datatype ProductEntry = ProductEntry(key: string, product: Option<Product>)

  /** A decoded product takes its key as id when it has none. */
  function WithKeyAsId(e: ProductEntry): (r: Product)
    requires e.product.Some?
  {
    var p := e.product.value;
    if p.id == "" then p.(id := e.key) else p
  }

  /** The products of a snapshot, keyed, with `isFavorite` recomputed from the
    * favourite ids when `favoriteIds` is given. */
  function Delivered(entries: seq<ProductEntry>, favoriteIds: Option<set<string>>): (r: seq<Product>)
  {
    if entries == [] then []
    else
      var rest := Delivered(entries[1..], favoriteIds);
      if entries[0].product.None? then rest
      else
        var p := WithKeyAsId(entries[0]);
        [if favoriteIds.Some? then p.(isFavorite := p.id in favoriteIds.value) else p] + rest
  }

  /** The delivered list keeps the snapshot order of the non-null products. */
  lemma {:induction false} DeliveredMarksFavorites(entries: seq<ProductEntry>, favoriteIds: set<string>)
    ensures forall p :: p in Delivered(entries, Some(favoriteIds)) ==> p.isFavorite == (p.id in favoriteIds)
  {
    if entries != [] {
      DeliveredMarksFavorites(entries[1..], favoriteIds);
    }
  }

  // ----- the shop screen ---------------------------------------------------

  /** `getSortOrderText`. */
  function SortOrderText(order: SortOrder): (r: string)
    ensures order == Unsorted <==> r == "Sort"
  {
    match order
    case NameAToZ => "Name: A to Z"
    case NameZToA => "Name: Z to A"
    case PriceLowToHigh => "Price: Low to High"
    case PriceHighToLow => "Price: High to Low"
    case ByRating => "Rating"
    case Unsorted => "Sort"
  }

  /** The six labels are distinct. */
  lemma SortOrderTextInjective(a: SortOrder, b: SortOrder)
    ensures SortOrderText(a) == SortOrderText(b) ==> a == b
  {
  }

  /** The category selection after tapping a chip: the selected chip
    * deselects, any other chip becomes the selection. */
  function ChipSelection(selected: Option<string>, category: string): (r: Option<string>)
    ensures r.None? <==> selected == Some(category)
    ensures r.Some? ==> r.value == category
  {
    if selected == Some(category) then None else Some(category)
  }

  /** A new search query reloads only from two characters on, and only once
    * products have arrived. */
  predicate ReloadsOnQueryChange(query: string, products: seq<Product>)
  {
    |query| >= 2 && products != []
  }

  /** The main area of the shop screen. */
  datatype ShopContent = Spinner | ErrorText(message: string) | NoProducts(offerClearAll: bool) | Grid(shown: seq<Product>)

  /** Loading first, then the error, then the empty state, then the grid. */
  function ShopContentFor(isLoading: bool, errorMessage: Option<string>, filtered: seq<Product>,
                          query: string, filterCategory: Option<string>, order: SortOrder): (r: ShopContent)
    ensures r.NoProducts? ==> !isLoading && errorMessage.None? && filtered == []
    ensures r.NoProducts? && r.offerClearAll <==>
      !isLoading && errorMessage.None? && filtered == []
      && (query != "" || filterCategory.Some? || order != Unsorted)
    ensures r.Grid? ==> r.shown == filtered && filtered != []
  {
    if isLoading then Spinner
    else if errorMessage.Some? then ErrorText(errorMessage.value)
    else if filtered == [] then NoProducts(query != "" || filterCategory.Some? || order != Unsorted)
    else Grid(filtered)
  }
}
