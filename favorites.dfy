/** The favourites screen: the user's favourite ids joined with the products,
  * and the two writes that remove a favourite. */
module Favorites {
  import opened Common
  import opened Snapshot
  import opened Model
  import opened Catalog

  /** The keys of a node's children, in order (`children.mapNotNull { it.key }`). */
  function Keys(es: seq<Entry>): (r: seq<string>)
    ensures |r| == |es|
    ensures forall i :: 0 <= i < |es| ==> r[i] == es[i].key
  {
    if es == [] then [] else [es[0].key] + Keys(es[1..])
  }

  /** A key is listed exactly when a child is found under it. */
  lemma {:induction false} KeysFindChild(es: seq<Entry>, key: string)
    ensures key in Keys(es) <==> Lookup(es, key).Some?
  {
    if es != [] {
      KeysFindChild(es[1..], key);
      assert Keys(es) == [es[0].key] + Keys(es[1..]);
    }
  }

  /** The favourites listed: the products, in snapshot order, whose key is a
    * favourite id, each with its key as id and marked as favourite. */
  function Joined(entries: seq<ProductEntry>, favoriteIds: seq<string>): (r: seq<Product>)
    decreases |entries|
  {
    if entries == [] then []
    else
      var e := entries[|entries| - 1];
      Joined(entries[..|entries| - 1], favoriteIds)
        + (if e.key in favoriteIds && e.product.Some? then [e.product.value.(id := e.key, isFavorite := true)] else [])
  }

  /** A product is listed exactly when its key is a favourite id and it
    * decodes; a favourite id with no product is dropped. */
  lemma {:induction false} JoinedExactly(entries: seq<ProductEntry>, favoriteIds: seq<string>)
    ensures forall i :: 0 <= i < |entries| && entries[i].key in favoriteIds && entries[i].product.Some? ==>
      entries[i].product.value.(id := entries[i].key, isFavorite := true) in Joined(entries, favoriteIds)
    ensures forall p :: p in Joined(entries, favoriteIds) ==>
      exists i :: (0 <= i < |entries| && entries[i].key in favoriteIds && entries[i].product.Some?
                   && p == entries[i].product.value.(id := entries[i].key, isFavorite := true))
    decreases |entries|
  {
    if entries != [] {
      var n := |entries| - 1;
      var prefix := entries[..n];
      JoinedExactly(prefix, favoriteIds);
      assert forall i :: 0 <= i < n ==> prefix[i] == entries[i];
      forall p | p in Joined(entries, favoriteIds)
        ensures exists i :: (0 <= i < |entries| && entries[i].key in favoriteIds && entries[i].product.Some?
                             && p == entries[i].product.value.(id := entries[i].key, isFavorite := true))
      {
        if p !in Joined(prefix, favoriteIds) {
          assert p == entries[n].product.value.(id := entries[n].key, isFavorite := true);
        }
      }
    }
  }

  /** Every listed product is a favourite, flagged as one, and carries a
    * favourite id. */
  lemma JoinedAreFavorites(entries: seq<ProductEntry>, favoriteIds: seq<string>)
    ensures forall p :: p in Joined(entries, favoriteIds) ==> p.isFavorite && p.id in favoriteIds
  {
    JoinedExactly(entries, favoriteIds);
  }

  /** `favorites/{userId}/{productId}` removed; a user with no favourites node
    * is left alone. */
  function FavoriteRemoved(favorites: Value, userId: string, productId: string): (r: Value)
  {
    if Has(favorites, userId) then SetChild(favorites, userId, RemoveChild(Node(favorites, userId), productId))
    else favorites
  }

  /** `products/{productId}/isFavorite` set to false. */
  function FlagCleared(products: Value, productId: string): (r: Value)
  {
    SetChild(products, productId, SetChild(Node(products, productId), "isFavorite", Bool(false)))
  }

  /** After the removal the product is no longer among the user's favourite
    * ids, so a products listener registered on the next favourites delivery
    * leaves it out; the user's other favourites and other users are untouched. */
  lemma RemovedFavoriteLeavesList(favorites: Value, userId: string, productId: string,
                                  entries: seq<ProductEntry>, otherId: string, otherUser: string)
    ensures productId !in Keys(Children(Node(FavoriteRemoved(favorites, userId, productId), userId)))
    ensures forall p :: p in Joined(entries, Keys(Children(Node(FavoriteRemoved(favorites, userId, productId), userId)))) ==>
      p.id != productId
    ensures otherId != productId ==>
      Child(Node(FavoriteRemoved(favorites, userId, productId), userId), otherId) == Child(Node(favorites, userId), otherId)
    ensures otherUser != userId ==>
      Child(FavoriteRemoved(favorites, userId, productId), otherUser) == Child(favorites, otherUser)
  {
    var after := FavoriteRemoved(favorites, userId, productId);
    var node := RemoveChild(Node(favorites, userId), productId);
    LookupWithout(Children(Node(favorites, userId)), productId, otherId);
    if Has(favorites, userId) {
      LookupReplace(Children(favorites), userId, node, otherUser);
      assert Node(after, userId) == node;
    }
    KeysFindChild(Children(Node(after, userId)), productId);
    JoinedAreFavorites(entries, Keys(Children(Node(after, userId))));
  }

  /** A products listener registered before the removal still holds the old
    * ids: when the products change, it lists the removed product again. */
  lemma StaleListenerRelists(entries: seq<ProductEntry>, staleIds: seq<string>, i: nat)
    requires i < |entries| && entries[i].key in staleIds && entries[i].product.Some?
    ensures exists p :: p in Joined(entries, staleIds) && p.id == entries[i].key && p.isFavorite
  {
    JoinedExactly(entries, staleIds);
    var p := entries[i].product.value.(id := entries[i].key, isFavorite := true);
    assert p in Joined(entries, staleIds);
  }

  /** The flag written reads back as false; other products are untouched. */
  lemma FlagClearedReadBack(products: Value, productId: string, other: string)
    ensures GetBool(Node(FlagCleared(products, productId), productId), "isFavorite") == Found(false)
    ensures other != productId ==> Child(FlagCleared(products, productId), other) == Child(products, other)
  {
    var node := SetChild(Node(products, productId), "isFavorite", Bool(false));
    LookupReplace(Children(products), productId, node, other);
    LookupReplace(Children(Node(products, productId)), "isFavorite", Bool(false), "isFavorite");
  }

  datatype FavoriteUi = FavoriteUi(favoriteProducts: seq<Product>, isLoading: bool, errorMessage: Option<string>)

  const InitialFavoriteUi := FavoriteUi([], true, None)

  class FavoriteViewModel {
    var ui: FavoriteUi
    /** The products listeners, in registration order, each with the
      * favourite ids of the delivery that registered it; none is ever removed. */
    var listeners: seq<seq<string>>
    /** The `favorites` node. */
    var favorites: Value
    /** The `products` node. */
    var products: Value

    /** `init` starts `loadFavorites`. */
    constructor(favorites: Value, products: Value)
      ensures ui == InitialFavoriteUi && listeners == []
      ensures this.favorites == favorites && this.products == products
    {
      ui := InitialFavoriteUi;
      listeners := [];
      this.favorites := favorites;
      this.products := products;
    }

    /** `loadFavorites`: loading, no error, until a listener answers. */
    method LoadFavorites()
      modifies this
      ensures ui == old(ui).(isLoading := true, errorMessage := None)
      ensures listeners == old(listeners) && favorites == old(favorites) && products == old(products)
    {
      ui := ui.(isLoading := true, errorMessage := None);
    }

    /** The user's favourites node arrives. With no ids the list empties and
      * loading ends; otherwise one more products listener is registered,
      * holding these ids (`joins`). Earlier listeners stay registered. */
    method OnFavoritesDelivered(node: Value) returns (joins: bool)
      modifies this
      ensures joins <==> Children(node) != []
      ensures joins ==> listeners == old(listeners) + [Keys(Children(node))] && ui == old(ui)
      ensures !joins ==> listeners == old(listeners) && ui == old(ui).(favoriteProducts := [], isLoading := false)
      ensures favorites == old(favorites) && products == old(products)
    {
      var ids := Keys(Children(node));
      if ids == [] {
        ui := ui.(favoriteProducts := [], isLoading := false);
        return false;
      }
      listeners := listeners + [ids];
      return true;
    }

    /** The products arrive at the products listener `listener`: the
      * favourites among them, by the ids that listener holds, are listed. */
    method OnProductsDelivered(listener: nat, entries: seq<ProductEntry>)
      requires listener < |listeners|
      modifies this
      ensures ui == old(ui).(favoriteProducts := Joined(entries, old(listeners)[listener]), isLoading := false)
      ensures listeners == old(listeners) && favorites == old(favorites) && products == old(products)
    {
      var favoriteIds := listeners[listener];
      var listed: seq<Product> := [];
      var i := 0;
      while i < |entries|
        invariant 0 <= i <= |entries|
        invariant listed == Joined(entries[..i], favoriteIds)
      {
        assert entries[..i + 1][..i] == entries[..i];
        var e := entries[i];
        if e.key in favoriteIds && e.product.Some? {
          var p := e.product.value;
          p := p.(id := e.key);
          p := p.(isFavorite := true);
          listed := listed + [p];
        }
        i := i + 1;
      }
      assert entries[..i] == entries;
      ui := ui.(favoriteProducts := listed, isLoading := false);
    }

    /** Either listener is cancelled with a database error. */
    method OnCancelled(message: string)
      modifies this
      ensures ui == old(ui).(isLoading := false, errorMessage := Some(message))
      ensures listeners == old(listeners) && favorites == old(favorites) && products == old(products)
    {
      ui := ui.(isLoading := false, errorMessage := Some(message));
    }

    /** `removeFavorite` for the user `userId`: the favourite is removed, then
      * the product's flag cleared. `removeFailure` and `flagFailure` are the
      * messages of the writes that fail, if any; a failure stops the
      * sequence and only sets the error. The list itself waits for the next
      * delivery. */
    method RemoveFavorite(userId: string, productId: string,
                          removeFailure: Option<Option<string>>, flagFailure: Option<Option<string>>)
      modifies this
      ensures removeFailure.Some? ==>
        favorites == old(favorites) && products == old(products)
        && ui == old(ui).(errorMessage := Some("Failed to remove favorite: " + removeFailure.value.GetOr("null")))
      ensures removeFailure.None? && flagFailure.Some? ==>
        favorites == FavoriteRemoved(old(favorites), userId, productId) && products == old(products)
        && ui == old(ui).(errorMessage := Some("Failed to remove favorite: " + flagFailure.value.GetOr("null")))
      ensures removeFailure.None? && flagFailure.None? ==>
        favorites == FavoriteRemoved(old(favorites), userId, productId)
        && products == FlagCleared(old(products), productId) && ui == old(ui)
      ensures listeners == old(listeners)
    {
      if removeFailure.Some? {
        ui := ui.(errorMessage := Some("Failed to remove favorite: " + removeFailure.value.GetOr("null")));
        return;
      }
      favorites := FavoriteRemoved(favorites, userId, productId);
      if flagFailure.Some? {
        ui := ui.(errorMessage := Some("Failed to remove favorite: " + flagFailure.value.GetOr("null")));
        return;
      }
      products := FlagCleared(products, productId);
    }
  }
}
