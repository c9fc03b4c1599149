/** The shop screen's remembered state (the selected chip and the search
  * field) and the click handlers that update it together with the view model. */
module ShopScreenState {
  import opened Common
  import opened Model
  import opened Catalog
  import opened Shop

  class ShopScreen {
    const vm: ShopViewModel
    var selectedCategory: Option<string>
    var searchQuery: string

    /** Both remembered values start from the view model's state. */
    constructor(vm: ShopViewModel)
      ensures this.vm == vm
      ensures selectedCategory == vm.filterCategory && searchQuery == vm.searchQuery
    {
      this.vm := vm;
      selectedCategory := vm.filterCategory;
      searchQuery := vm.searchQuery;
    }

    /** The `LaunchedEffect`s keyed on the sort order, the category and the
      * query, run after a handler changed some of them: once products have
      * arrived, a changed sort or category forces a reload, and so does a
      * changed query of two characters or more. */
    method RunEffects(sortBefore: SortOrder, categoryBefore: Option<string>, queryBefore: string)
      returns (reloads: bool)
      modifies vm
      ensures reloads <==>
        ((old(vm.sortOrder) != sortBefore || old(vm.filterCategory) != categoryBefore) && old(vm.products) != [])
        || (old(vm.searchQuery) != queryBefore && ReloadsOnQueryChange(old(vm.searchQuery), old(vm.products)))
      ensures reloads ==> vm.isLoading && vm.errorMessage == None
      ensures !reloads ==> vm.isLoading == old(vm.isLoading) && vm.errorMessage == old(vm.errorMessage)
      ensures vm.products == old(vm.products) && vm.favoriteStore == old(vm.favoriteStore)
      ensures vm.filterCategory == old(vm.filterCategory) && vm.searchQuery == old(vm.searchQuery)
      ensures vm.sortOrder == old(vm.sortOrder)
    {
      reloads := false;
      if vm.sortOrder != sortBefore && vm.products != [] {
        var _ := vm.LoadProducts(true);
        reloads := true;
      }
      if vm.filterCategory != categoryBefore && vm.products != [] {
        var _ := vm.LoadProducts(true);
        reloads := true;
      }
      if vm.searchQuery != queryBefore && ReloadsOnQueryChange(vm.searchQuery, vm.products) {
        var _ := vm.LoadProducts(true);
        reloads := true;
      }
    }

    /** A chip tap: the selected chip clears the selection, another chip
      * becomes it, in the screen and in the view model alike; a changed
      * category reloads once products have arrived. */
    method TapCategoryChip(category: string) returns (reloads: bool)
      modifies this, vm, vm.preferences
      ensures selectedCategory == ChipSelection(old(selectedCategory), category)
      ensures vm.filterCategory == selectedCategory && vm.preferences.filterCategory == selectedCategory
      ensures searchQuery == old(searchQuery) && vm.searchQuery == old(vm.searchQuery)
      ensures vm.sortOrder == old(vm.sortOrder) && vm.products == old(vm.products)
      ensures reloads <==> vm.filterCategory != old(vm.filterCategory) && old(vm.products) != []
      ensures reloads ==> vm.isLoading && vm.errorMessage == None
      ensures !reloads ==> vm.isLoading == old(vm.isLoading) && vm.errorMessage == old(vm.errorMessage)
    {
      var sortBefore, categoryBefore, queryBefore := vm.sortOrder, vm.filterCategory, vm.searchQuery;
      var next := if selectedCategory == Some(category) then None else Some(category);
      selectedCategory := next;
      vm.SetFilterCategory(next);
      reloads := RunEffects(sortBefore, categoryBefore, queryBefore);
    }

    /** Typing in the search bar; a changed query of two characters or more
      * reloads once products have arrived. */
    method ChangeQuery(query: string) returns (reloads: bool)
      modifies this, vm, vm.preferences
      ensures searchQuery == query && vm.searchQuery == query
      ensures selectedCategory == old(selectedCategory)
      ensures vm.filterCategory == old(vm.filterCategory) && vm.sortOrder == old(vm.sortOrder)
      ensures vm.products == old(vm.products)
      ensures reloads <==> query != old(vm.searchQuery) && ReloadsOnQueryChange(query, old(vm.products))
      ensures reloads ==> vm.isLoading && vm.errorMessage == None
      ensures !reloads ==> vm.isLoading == old(vm.isLoading) && vm.errorMessage == old(vm.errorMessage)
    {
      var sortBefore, categoryBefore, queryBefore := vm.sortOrder, vm.filterCategory, vm.searchQuery;
      searchQuery := query;
      vm.SetSearchQuery(query);
      reloads := RunEffects(sortBefore, categoryBefore, queryBefore);
    }

    /** Closing the search bar clears a non-empty query; an empty query is
      * below the reload threshold, so nothing reloads. */
    method CloseSearch()
      modifies this, vm, vm.preferences
      ensures old(searchQuery) != "" ==> searchQuery == "" && vm.searchQuery == ""
      ensures old(searchQuery) == "" ==> searchQuery == "" && vm.searchQuery == old(vm.searchQuery)
      ensures selectedCategory == old(selectedCategory)
      ensures vm.filterCategory == old(vm.filterCategory) && vm.sortOrder == old(vm.sortOrder)
      ensures vm.products == old(vm.products)
      ensures vm.isLoading == old(vm.isLoading) && vm.errorMessage == old(vm.errorMessage)
    {
      if searchQuery != "" {
        var sortBefore, categoryBefore, queryBefore := vm.sortOrder, vm.filterCategory, vm.searchQuery;
        searchQuery := "";
        vm.SetSearchQuery("");
        var _ := RunEffects(sortBefore, categoryBefore, queryBefore);
      }
    }

    /** A choice in the sort menu; a changed sort reloads once products
      * have arrived. */
    method SelectSortOrder(order: SortOrder) returns (reloads: bool)
      modifies vm, vm.preferences
      ensures vm.sortOrder == order && vm.preferences.sortOrder == order
      ensures vm.filterCategory == old(vm.filterCategory) && vm.searchQuery == old(vm.searchQuery)
      ensures vm.products == old(vm.products)
      ensures reloads <==> order != old(vm.sortOrder) && old(vm.products) != []
      ensures reloads ==> vm.isLoading && vm.errorMessage == None
      ensures !reloads ==> vm.isLoading == old(vm.isLoading) && vm.errorMessage == old(vm.errorMessage)
    {
      var sortBefore, categoryBefore, queryBefore := vm.sortOrder, vm.filterCategory, vm.searchQuery;
      vm.SetSortOrder(order);
      reloads := RunEffects(sortBefore, categoryBefore, queryBefore);
    }

    /** "Reset" in the sort menu; it reloads when a sort was in force and
      * products have arrived. */
    method ResetSortOrder() returns (reloads: bool)
      modifies vm, vm.preferences
      ensures vm.sortOrder == Unsorted && vm.preferences.sortOrder == Unsorted
      ensures vm.filterCategory == old(vm.filterCategory) && vm.searchQuery == old(vm.searchQuery)
      ensures vm.products == old(vm.products)
      ensures reloads <==> old(vm.sortOrder) != Unsorted && old(vm.products) != []
      ensures reloads ==> vm.isLoading && vm.errorMessage == None
      ensures !reloads ==> vm.isLoading == old(vm.isLoading) && vm.errorMessage == old(vm.errorMessage)
    {
      var sortBefore, categoryBefore, queryBefore := vm.sortOrder, vm.filterCategory, vm.searchQuery;
      vm.ResetSort();
      reloads := RunEffects(sortBefore, categoryBefore, queryBefore);
    }

    /** "Clear All Filters": empty query, no category, no sort, everywhere;
      * the category and sort effects reload when either was set and products
      * have arrived, while the emptied query is below the threshold. */
    method ClearAllFilters() returns (reloads: bool)
      modifies this, vm, vm.preferences
      ensures vm.searchQuery == "" && vm.filterCategory == None && vm.sortOrder == Unsorted
      ensures vm.preferences.searchQuery == "" && vm.preferences.filterCategory == None
      ensures vm.preferences.sortOrder == Unsorted
      ensures selectedCategory == None && searchQuery == ""
      ensures vm.products == old(vm.products)
      ensures reloads <==> (old(vm.filterCategory) != None || old(vm.sortOrder) != Unsorted) && old(vm.products) != []
      ensures reloads ==> vm.isLoading && vm.errorMessage == None
      ensures !reloads ==> vm.isLoading == old(vm.isLoading) && vm.errorMessage == old(vm.errorMessage)
    {
      var sortBefore, categoryBefore, queryBefore := vm.sortOrder, vm.filterCategory, vm.searchQuery;
      vm.SetSearchQuery("");
      vm.SetFilterCategory(None);
      vm.ResetSort();
      selectedCategory := None;
      searchQuery := "";
      reloads := RunEffects(sortBefore, categoryBefore, queryBefore);
    }
  }

  /** After clearing, the query shows the whole catalogue in stored order. */
  lemma ClearedQueryShowsAll(products: seq<Product>)
    ensures FilteredAndSorted(products, None, "", Unsorted) == products
  {
    FilterStage(products, None, "");
  }
}
