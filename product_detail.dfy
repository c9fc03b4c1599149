/** The current product screen's view model: the product and its live stock,
  * the quantity picker bounded by that stock, the size choice, reviews with
  * up to three attachments, the recomputed average rating, favourites and
  * adding to the cart. The database paths it touches are one `Store`. */
module ProductDetail {
  import opened Common
  import opened Model
  import opened Sorting
  import opened Snapshot

  /** The screen state (`ProductDetailUiState`). */
  datatype UiState = UiState(
    product: Option<Product>,
    isLoading: bool,
    errorMessage: Option<string>,
    quantity: int,
    actionMessage: Option<string>,
    comments: seq<ProductComment>,
    selectedSize: Option<string>,
    stock: int)

  /** The defaults of every field. */
  const InitialUi := UiState(None, true, None, 1, None, [], None, 0)

  /** What this view model writes, for one product and one user. */
  datatype Store = Store(
    cart: map<string, CartItem>,            // cart/{user}
    favorites: map<string, Product>,        // favorites/{user}
    favoriteFlag: Option<bool>,             // products/{id}/favorite
    ratings: map<string, int>,              // ratings/{id}
    reviews: map<string, ProductComment>,   // comments/{id}
    storedRating: Option<real>,             // products/{id}/rating
    storedReviewCount: Option<int>)         // products/{id}/reviewCount

  // ----- the stock check -------------------------------------------------------

  /** `validateStock` on a state: whether the quantity can be served, and the
    * state with the error message set or cleared accordingly. */
  function CheckStock(u: UiState): (r: (bool, UiState))
    ensures r.0 <==> u.product.Some? && u.quantity <= u.stock
    ensures r.1 == u.(errorMessage := r.1.errorMessage)
    ensures u.product.None? ==> r.1 == u
    ensures r.0 ==> r.1.errorMessage == None
    ensures u.product.Some? && !r.0 ==>
      r.1.errorMessage == Some("Not enough stock available. Only " + IntToString(u.stock) + " items left.")
  {
    if u.product.None? then (false, u)
    else if u.quantity > u.stock then
      (false, u.(errorMessage := Some("Not enough stock available. Only " + IntToString(u.stock) + " items left.")))
    else (true, u.(errorMessage := None))
  }

  /** `getValue(Int::class.java) ?: 0` for a read that did not throw. */
  function StockOf(r: Read<int>): (s: int)
    requires !r.Thrown?
    ensures r.Absent? ==> s == 0
    ensures r.Found? ==> s == r.value
  {
    if r.Found? then r.value else 0
  }

  // ----- reviews -----------------------------------------------------------------

  /** The comment's sort key: its timestamp. */
  function CommentTime(c: ProductComment): (r: Key)
  {
    IntKey(c.timestamp)
  }

  /** The comments shown: the non-null children, newest first, stably. */
  function NewestFirst(entries: seq<Option<ProductComment>>): (r: seq<ProductComment>)
  {
    SortBy(CommentTime, true, Present(entries))
  }

  /** Newest first, the same comments, and comments with the same timestamp
    * kept in their delivered order. */
  lemma NewestFirstCorrect(entries: seq<Option<ProductComment>>)
    ensures var r := NewestFirst(entries);
      (forall i, j :: 0 <= i < j < |r| ==> r[i].timestamp >= r[j].timestamp)
      && multiset(r) == multiset(Present(entries))
      && forall t :: WithKey(CommentTime, IntKey(t), r) == WithKey(CommentTime, IntKey(t), Present(entries))
  {
    var r := NewestFirst(entries);
    SortByCorrect(CommentTime, true, Present(entries));
    forall i, j | 0 <= i < j < |r|
      ensures r[i].timestamp >= r[j].timestamp
    {
      NotBeforeInt(CommentTime, true, r[i], r[j], r[i].timestamp, r[j].timestamp);
    }
  }

  /** One picked attachment: its encoded image (absent when the stream could
    * not be opened or decoding threw) and the type the resolver reports. */
  datatype PickedMedia = PickedMedia(encoded: Option<string>, mimeType: Option<string>)

  const DefaultMimeType := "image/jpeg"

  /** The attachment for one pick: a video when the type starts with "video/"
    * (an unknown type counts as a JPEG image); a video is its own thumbnail. */
  function ConvertOne(m: PickedMedia): (r: Option<MediaContent>)
    ensures r.Some? <==> m.encoded.Some?
    ensures r.Some? ==> r.value.url == m.encoded.value
    ensures r.Some? ==> (r.value.kind == Video <==> StartsWith(m.mimeType.GetOr(DefaultMimeType), "video/"))
    ensures r.Some? && r.value.kind == Video ==> r.value.thumbnailUrl == r.value.url
    ensures r.Some? && r.value.kind == Image ==> r.value.thumbnailUrl == ""
  {
    var url :- m.encoded;
    var isVideo := StartsWith(m.mimeType.GetOr(DefaultMimeType), "video/");
    Some(MediaContent(url, if isVideo then Video else Image, if isVideo then url else ""))
  }

  /** `mapNotNull` of `ConvertOne`. */
  function ConvertEach(picked: seq<PickedMedia>): (r: seq<MediaContent>)
    ensures |r| <= |picked|
    ensures forall m :: m in r ==> exists i :: 0 <= i < |picked| && ConvertOne(picked[i]) == Some(m)
    ensures (forall i :: 0 <= i < |picked| ==> picked[i].encoded.Some?) ==> |r| == |picked|
  {
    if picked == [] then []
    else
      var rest := ConvertEach(picked[1..]);
      assert forall m :: m in rest ==> exists i :: 0 <= i < |picked| && ConvertOne(picked[i]) == Some(m) by {
        forall m | m in rest
          ensures exists i :: 0 <= i < |picked| && ConvertOne(picked[i]) == Some(m)
        {
          var k :| 0 <= k < |picked[1..]| && ConvertOne(picked[1..][k]) == Some(m);
          assert ConvertOne(picked[k + 1]) == Some(m);
        }
      }
      match ConvertOne(picked[0])
      case Some(c) => [c] + rest
      case None => rest
  }

  /** `convertMediaUrisToBase64`: the first three picks, failures dropped. */
  function ConvertMedia(picked: seq<PickedMedia>): (r: seq<MediaContent>)
  {
    ConvertEach(if |picked| <= 3 then picked else picked[..3])
  }

  /** At most three attachments, each from one of the first three picks, and
    * all of them when every pick converts. */
  lemma ConvertMediaBounds(picked: seq<PickedMedia>)
    ensures |ConvertMedia(picked)| <= 3
    ensures forall m :: m in ConvertMedia(picked) ==>
      exists i :: 0 <= i < |picked| && i < 3 && ConvertOne(picked[i]) == Some(m)
    ensures (forall i :: 0 <= i < |picked| ==> picked[i].encoded.Some?) ==>
      |ConvertMedia(picked)| == if |picked| <= 3 then |picked| else 3
  {
    var first := if |picked| <= 3 then picked else picked[..3];
    forall m | m in ConvertMedia(picked)
      ensures exists i :: 0 <= i < |picked| && i < 3 && ConvertOne(picked[i]) == Some(m)
    {
      var k :| 0 <= k < |first| && ConvertOne(first[k]) == Some(m);
      assert first[k] == picked[k];
    }
  }

  /** The reviewer's display name: the stored name, else the account's display
    * name, else "User 101"; a failed read falls back the same way.
    * `userNode` is `users/{user}` (`None` when the read threw). */
  function UserName(userNode: Option<Value>, displayName: Option<string>): (r: string)
    ensures userNode.Some? && GetString(userNode.value, "name").Found? ==> r == GetString(userNode.value, "name").value
    ensures userNode.None? || !GetString(userNode.value, "name").Found? ==> r == displayName.GetOr("User 101")
  {
    if userNode.Some? && GetString(userNode.value, "name").Found? then GetString(userNode.value, "name").value
    else displayName.GetOr("User 101")
  }

  /** The reviewer's picture: the stored URL, "" when none is stored, and the
    * account's photo (or "") only when reading threw. */
  function ProfileImageUrl(userNode: Option<Value>, photoUrl: Option<string>): (r: string)
    ensures userNode.Some? && !Has(userNode.value, "profileImageUrl") ==> r == ""
    ensures userNode.Some? && GetString(userNode.value, "profileImageUrl").Found? ==>
      r == GetString(userNode.value, "profileImageUrl").value
    ensures userNode.None? || GetString(userNode.value, "profileImageUrl").Thrown? ==> r == photoUrl.GetOr("")
  {
    if userNode.None? then photoUrl.GetOr("")
    else match GetString(userNode.value, "profileImageUrl")
      case Found(s) => s
      case Absent => ""
      case Thrown => photoUrl.GetOr("")
  }

  /** What the signed-in account offers a review. */
  datatype Reviewer = Reviewer(userNode: Option<Value>, displayName: Option<string>, photoUrl: Option<string>)

  /** The review record written under `comments/{id}/{user}`. */
  function ReviewRecord(userKey: string, who: Reviewer, rating: int, comment: string,
                        media: seq<PickedMedia>, now: int): (r: ProductComment)
    ensures r.userId == userKey && r.rating == rating && r.comment == comment && r.timestamp == now
    ensures r.username == UserName(who.userNode, who.displayName)
    ensures r.userProfileUrl == ProfileImageUrl(who.userNode, who.photoUrl)
    ensures |r.mediaUrls| <= 3
  {
    ConvertMediaBounds(media);
    ProductComment(userKey, UserName(who.userNode, who.displayName),
                   ProfileImageUrl(who.userNode, who.photoUrl), rating, comment, ConvertMedia(media), now)
  }

  // ----- the average rating -------------------------------------------------------

  /** Each child of `ratings/{id}` read as an `Int`; `None` when a read throws. */
  function RatingValues(children: seq<Value>): (r: Option<seq<int>>)
    ensures r.Some? <==> forall i :: 0 <= i < |children| ==> AsInteger(children[i], IntMin, IntMax).Found?
    ensures r.Some? ==> |r.value| == |children|
    ensures r.Some? ==> forall i :: 0 <= i < |children| ==> r.value[i] == AsInteger(children[i], IntMin, IntMax).value
  {
    if children == [] then Some([])
    else
      var first := AsInteger(children[0], IntMin, IntMax);
      if first.Found? then
        var rest := RatingValues(children[1..]);
        if rest.Some? then Some([first.value] + rest.value) else None
      else None
  }

  /** `totalRating.toFloat() / ratingCount`, or the new rating alone when no
    * rating could be counted. */
  function MeanRating(ratings: seq<int>, newRating: int): (avg: real)
    ensures |ratings| == 0 ==> avg == newRating as real
    ensures |ratings| > 0 ==> avg * |ratings| as real == SumInts(ratings) as real
  {
    if |ratings| > 0 then SumInts(ratings) as real / |ratings| as real else newRating as real
  }

  /** With every rating on a scale [lo, hi], so is the mean, and so is the
    * whole number the screen shows for it. */
  lemma MeanRatingWithinScale(ratings: seq<int>, newRating: int, lo: int, hi: int)
    requires 0 <= lo <= newRating <= hi
    requires forall i :: 0 <= i < |ratings| ==> lo <= ratings[i] <= hi
    ensures lo as real <= MeanRating(ratings, newRating) <= hi as real
    ensures lo <= Truncate(MeanRating(ratings, newRating)) <= hi
  {
    var avg := MeanRating(ratings, newRating);
    if |ratings| > 0 {
      SumIntsBounds(ratings, lo, hi);
      QuotientBounds(SumInts(ratings), |ratings|, lo, hi);
    }
    var t := Truncate(avg);
    assert t as real <= avg < t as real + 1.0;
  }

  /** From `lo * n <= s <= hi * n` to `lo <= s / n <= hi`. */
  lemma QuotientBounds(s: int, n: int, lo: int, hi: int)
    requires n > 0 && lo * n <= s <= hi * n
    ensures lo as real <= s as real / n as real <= hi as real
  {
    var q := s as real / n as real;
    assert q * n as real == s as real;
    assert (lo * n) as real == lo as real * n as real;
    assert (hi * n) as real == hi as real * n as real;
    assert (q - lo as real) * n as real >= 0.0;
    assert (hi as real - q) * n as real >= 0.0;
  }

  /** The loop of `updateProductRating`: reads every child as an `Int`,
    * adding it up; `ok` is false when a read throws. */
  method AverageRating(children: seq<Value>, newRating: int) returns (ok: bool, average: real, count: int)
    ensures ok <==> RatingValues(children).Some?
    ensures ok ==> count == |children| && average == MeanRating(RatingValues(children).value, newRating)
  {
    var total := 0;
    count := 0;
    ghost var seen: seq<int> := [];
    var i := 0;
    while i < |children|
      invariant 0 <= i <= |children| && count == i && |seen| == i
      invariant forall j :: 0 <= j < i ==> AsInteger(children[j], IntMin, IntMax) == Found(seen[j])
      invariant total == SumInts(seen)
    {
      var r := AsInteger(children[i], IntMin, IntMax);
      if !r.Found? {
        return false, 0.0, 0;
      }
      SumIntsAppend(seen, r.value);
      seen := seen + [r.value];
      total := total + r.value;
      count := count + 1;
      i := i + 1;
    }
    assert RatingValues(children).value == seen;
    ok := true;
    average := if count > 0 then total as real / count as real else newRating as real;
  }

  // ----- the view model ----------------------------------------------------------

  /** Outcomes of the review's writes and of the rating summary that follows. */
  datatype ReviewOutcome = ReviewOutcome(
    ratingWritten: bool,
    commentWritten: bool,
    failure: string,
    ratingsRead: Option<seq<Value>>,   // children of ratings/{id}; None: the read threw
    summaryRatingWritten: bool,
    summaryCountWritten: bool)

  class ProductDetailViewModel {
    const productId: string
    /** The signed-in user's id, the key of every per-user path. */
    const userKey: string
    var ui: UiState
    var hasUserReviewed: bool
    var store: Store

    /** `init`: `loadProduct` leaves the defaults (loading, no error). */
    constructor(productId: string, userKey: string, store: Store)
      ensures this.productId == productId && this.userKey == userKey
      ensures ui == InitialUi && !hasUserReviewed && this.store == store
    {
      this.productId := productId;
      this.userKey := userKey;
      ui := InitialUi;
      hasUserReviewed := false;
      this.store := store;
    }

    /** `checkIfUserHasReviewed`: the flag is whether the user's review
      * exists; a failed read leaves it. */
    method CheckIfUserHasReviewed(readSucceeds: bool)
      modifies this
      ensures readSucceeds ==> (hasUserReviewed <==> userKey in store.reviews)
      ensures !readSucceeds ==> hasUserReviewed == old(hasUserReviewed)
      ensures ui == old(ui) && store == old(store)
    {
      if readSucceeds {
        hasUserReviewed := userKey in store.reviews;
      }
    }

    /** The product listener delivered `products/{id}` (`None`: null). */
    method OnProductDelivered(key: string, product: Option<Product>)
      modifies this
      ensures product.Some? ==>
        ui == old(ui).(product := Some(product.value.(id := key)), isLoading := false, errorMessage := None)
      ensures product.None? ==> ui == old(ui).(isLoading := false, errorMessage := Some("Product not found"))
      ensures hasUserReviewed == old(hasUserReviewed) && store == old(store)
    {
      if product.Some? {
        ui := ui.(product := Some(product.value.(id := key)), isLoading := false, errorMessage := None);
      } else {
        ui := ui.(isLoading := false, errorMessage := Some("Product not found"));
      }
    }

    method OnProductCancelled(message: string)
      modifies this
      ensures ui == old(ui).(isLoading := false, errorMessage := Some(message))
      ensures hasUserReviewed == old(hasUserReviewed) && store == old(store)
    {
      ui := ui.(isLoading := false, errorMessage := Some(message));
    }

    /** The comments listener delivered the children of `comments/{id}`. */
    method OnCommentsDelivered(entries: seq<Option<ProductComment>>)
      modifies this
      ensures ui == old(ui).(comments := NewestFirst(entries))
      ensures hasUserReviewed == old(hasUserReviewed) && store == old(store)
    {
      var list: seq<ProductComment> := [];
      var i := 0;
      while i < |entries|
        invariant 0 <= i <= |entries|
        invariant list + Present(entries[i..]) == Present(entries)
      {
        assert entries[i..][1..] == entries[i + 1..];
        if entries[i].Some? {
          list := list + [entries[i].value];
        }
        i := i + 1;
      }
      assert entries[i..] == [];
      assert list == Present(entries);
      ui := ui.(comments := SortBy(CommentTime, true, list));
    }

    /** `validatePickedSize`. */
    method ValidatePickedSize() returns (ok: bool)
      modifies this
      ensures ok <==> old(ui).selectedSize.Some?
      ensures ok ==> ui == old(ui)
      ensures !ok ==> ui == old(ui).(errorMessage := Some("Please select a size"))
      ensures hasUserReviewed == old(hasUserReviewed) && store == old(store)
    {
      if ui.selectedSize.None? {
        ui := ui.(errorMessage := Some("Please select a size"));
        return false;
      }
      return true;
    }

    method SelectSize(size: string)
      modifies this
      ensures ui == old(ui).(selectedSize := Some(size))
      ensures hasUserReviewed == old(hasUserReviewed) && store == old(store)
    {
      ui := ui.(selectedSize := Some(size));
    }

    /** `validateStock`. */
    method ValidateStock() returns (ok: bool)
      modifies this
      ensures (ok, ui) == CheckStock(old(ui))
      ensures hasUserReviewed == old(hasUserReviewed) && store == old(store)
    {
      ok := CheckStock(ui).0;
      ui := CheckStock(ui).1;
    }

    /** `refreshStockData`: the stock read from `products/{id}/stock`
      * (`null` as 0) replaces the known stock and is re-validated; a read
      * that throws changes nothing. `delivered` is what the completion
      * callback receives. */
    method RefreshStockData(stockRead: Read<int>) returns (delivered: Option<int>)
      modifies this
      ensures stockRead.Thrown? ==> delivered == None && ui == old(ui)
      ensures !stockRead.Thrown? ==>
        delivered == Some(StockOf(stockRead)) && ui == CheckStock(old(ui).(stock := StockOf(stockRead))).1
      ensures hasUserReviewed == old(hasUserReviewed) && store == old(store)
    {
      if stockRead.Thrown? {
        return None;
      }
      var s := StockOf(stockRead);
      ui := ui.(stock := s);
      var _ := ValidateStock();
      delivered := Some(s);
    }

    /** `incrementQuantity`: after refreshing the stock, one more only while
      * the quantity is below it. */
    method IncrementQuantity(stockRead: Read<int>)
      modifies this
      ensures stockRead.Thrown? ==> ui == old(ui)
      ensures !stockRead.Thrown? ==>
        var s := StockOf(stockRead);
        var checked := CheckStock(old(ui).(stock := s)).1;
        ui == if old(ui).quantity < s then checked.(quantity := old(ui).quantity + 1)
              else checked.(errorMessage := Some("Cannot add more items. Available stock is " + IntToString(s) + "."))
      ensures ui.quantity == old(ui).quantity || (ui.quantity == old(ui).quantity + 1 && ui.quantity <= ui.stock)
      ensures hasUserReviewed == old(hasUserReviewed) && store == old(store)
    {
      var delivered := RefreshStockData(stockRead);
      if delivered.Some? {
        var s := delivered.value;
        if ui.quantity < s {
          ui := ui.(quantity := ui.quantity + 1);
        } else {
          ui := ui.(errorMessage := Some("Cannot add more items. Available stock is " + IntToString(s) + "."));
        }
      }
    }

    /** `decrementQuantity`: never below one. */
    method DecrementQuantity()
      modifies this
      ensures ui == old(ui).(quantity := if old(ui).quantity > 1 then old(ui).quantity - 1 else old(ui).quantity)
      ensures old(ui).quantity >= 1 ==> ui.quantity >= 1
      ensures hasUserReviewed == old(hasUserReviewed) && store == old(store)
    {
      if ui.quantity > 1 {
        ui := ui.(quantity := ui.quantity - 1);
      }
    }

    /** `updateProductRating`: the mean of all stored ratings is written as
      * the product's rating, then their number as its review count; the
      * product on screen shows the mean truncated. Any failure stops the
      * update where it happened, silently. */
    method UpdateProductRating(newRating: int, outcome: ReviewOutcome)
      modifies this
      ensures outcome.ratingsRead.None? || RatingValues(outcome.ratingsRead.value).None? ==>
        ui == old(ui) && store == old(store)
      ensures outcome.ratingsRead.Some? && RatingValues(outcome.ratingsRead.value).Some? ==>
        var ratings := RatingValues(outcome.ratingsRead.value).value;
        var avg := MeanRating(ratings, newRating);
        (!outcome.summaryRatingWritten ==> ui == old(ui) && store == old(store))
        && (outcome.summaryRatingWritten && !outcome.summaryCountWritten ==>
              ui == old(ui) && store == old(store).(storedRating := Some(avg)))
        && (outcome.summaryRatingWritten && outcome.summaryCountWritten ==>
              store == old(store).(storedRating := Some(avg), storedReviewCount := Some(|ratings|))
              && ui == old(ui).(product := (if old(ui).product.Some?
                                            then Some(old(ui).product.value.(rating := Truncate(avg), reviewCount := |ratings|))
                                            else None),
                                actionMessage := Some("Review submitted successfully")))
      ensures hasUserReviewed == old(hasUserReviewed)
    {
      if outcome.ratingsRead.None? {
        return;
      }
      var ok, avg, count := AverageRating(outcome.ratingsRead.value, newRating);
      if !ok || !outcome.summaryRatingWritten {
        return;
      }
      store := store.(storedRating := Some(avg));
      if !outcome.summaryCountWritten {
        return;
      }
      store := store.(storedReviewCount := Some(count));
      var shown := if ui.product.Some? then Some(ui.product.value.(rating := Truncate(avg), reviewCount := count)) else None;
      ui := ui.(product := shown, actionMessage := Some("Review submitted successfully"));
    }

    /** `submitRatingWithComment`: nothing without a product; a second review
      * is refused; otherwise the rating, then the review, then the summary,
      * and the user is marked as having reviewed. A failed rating or review
      * write reports the error and leaves the flag. */
    method SubmitRatingWithComment(rating: int, comment: string, media: seq<PickedMedia>,
                                   who: Reviewer, now: int, outcome: ReviewOutcome)
      modifies this
      ensures old(ui).product.None? ==>
        ui == old(ui) && store == old(store) && hasUserReviewed == old(hasUserReviewed)
      ensures old(ui).product.Some? && old(hasUserReviewed) ==>
        ui == old(ui).(actionMessage := Some("You've already reviewed this product"))
        && store == old(store) && hasUserReviewed
      ensures old(ui).product.Some? && !old(hasUserReviewed) && !outcome.ratingWritten ==>
        ui == old(ui).(actionMessage := Some("Failed to submit review: " + outcome.failure))
        && store == old(store) && !hasUserReviewed
      ensures old(ui).product.Some? && !old(hasUserReviewed) && outcome.ratingWritten && !outcome.commentWritten ==>
        ui == old(ui).(actionMessage := Some("Failed to submit review: " + outcome.failure))
        && store == old(store).(ratings := old(store).ratings[userKey := rating]) && !hasUserReviewed
      ensures old(ui).product.Some? && !old(hasUserReviewed) && outcome.ratingWritten && outcome.commentWritten ==>
        hasUserReviewed && ui.actionMessage == Some("Review submitted successfully")
        && store.ratings == old(store).ratings[userKey := rating]
        && store.reviews == old(store).reviews[userKey := ReviewRecord(userKey, who, rating, comment, media, now)]
        && store.cart == old(store).cart && store.favorites == old(store).favorites
        && store.favoriteFlag == old(store).favoriteFlag
        && ui.quantity == old(ui).quantity && ui.comments == old(ui).comments
      ensures old(ui).product.Some? && !old(hasUserReviewed) && outcome.ratingWritten && outcome.commentWritten ==>
        var summed := outcome.ratingsRead.Some? && RatingValues(outcome.ratingsRead.value).Some?;
        var ratings := if summed then RatingValues(outcome.ratingsRead.value).value else [];
        var avg := MeanRating(ratings, rating);
        store.storedRating == (if summed && outcome.summaryRatingWritten then Some(avg) else old(store).storedRating)
        && store.storedReviewCount
           == (if summed && outcome.summaryRatingWritten && outcome.summaryCountWritten then Some(|ratings|)
               else old(store).storedReviewCount)
        && ui.product
           == (if summed && outcome.summaryRatingWritten && outcome.summaryCountWritten
               then Some(old(ui).product.value.(rating := Truncate(avg), reviewCount := |ratings|))
               else old(ui).product)
      ensures (old(hasUserReviewed) ==> userKey in old(store).reviews) ==> (hasUserReviewed ==> userKey in store.reviews)
    {
      if ui.product.None? {
        return;
      }
      if hasUserReviewed {
        ui := ui.(actionMessage := Some("You've already reviewed this product"));
        return;
      }
      ui := ui.(actionMessage := Some("Processing your review..."));
      var review := ReviewRecord(userKey, who, rating, comment, media, now);
      if !outcome.ratingWritten {
        ui := ui.(actionMessage := Some("Failed to submit review: " + outcome.failure));
        return;
      }
      store := store.(ratings := store.ratings[userKey := rating]);
      if !outcome.commentWritten {
        ui := ui.(actionMessage := Some("Failed to submit review: " + outcome.failure));
        return;
      }
      store := store.(reviews := store.reviews[userKey := review]);
      UpdateProductRating(rating, outcome);
      hasUserReviewed := true;
      ui := ui.(actionMessage := Some("Review submitted successfully"));
    }

    /** `toggleFavorite`: the flag flips on screen at once; the favourites
      * entry (the product as it was before the flip) is added or removed,
      * then `products/{id}/favorite` is written; a failure of either puts
      * the product back exactly as it was. */
    method ToggleFavorite(favoriteWritten: bool, flagWritten: bool, failure: string)
      modifies this
      ensures old(ui).product.None? ==> ui == old(ui) && store == old(store)
      ensures old(ui).product.Some? ==>
        var p := old(ui).product.value;
        var newStatus := !p.isFavorite;
        store.favorites == (if !favoriteWritten then old(store).favorites
                            else if newStatus then old(store).favorites[productId := p]
                            else old(store).favorites - {productId})
        && store.favoriteFlag == (if favoriteWritten && flagWritten then Some(newStatus) else old(store).favoriteFlag)
        && ui == (if favoriteWritten && flagWritten
                  then old(ui).(product := Some(p.(isFavorite := newStatus)),
                                actionMessage := Some(if newStatus then "Added to favorites" else "Removed from favorites"))
                  else old(ui).(actionMessage := Some("Failed to update favorite status: " + failure)))
      ensures store.cart == old(store).cart && store.ratings == old(store).ratings
      ensures store.reviews == old(store).reviews && hasUserReviewed == old(hasUserReviewed)
    {
      if ui.product.None? {
        return;
      }
      var p := ui.product.value;
      var newStatus := !p.isFavorite;
      ui := ui.(product := Some(p.(isFavorite := newStatus)));
      if favoriteWritten {
        if newStatus {
          store := store.(favorites := store.favorites[productId := p]);
        } else {
          store := store.(favorites := store.favorites - {productId});
        }
      }
      if favoriteWritten && flagWritten {
        store := store.(favoriteFlag := Some(newStatus));
        ui := ui.(actionMessage := Some(if newStatus then "Added to favorites" else "Removed from favorites"));
      } else {
        ui := ui.(product := Some(ui.product.value.(isFavorite := !newStatus)),
                  actionMessage := Some("Failed to update favorite status: " + failure));
      }
    }

    /** `addToCart`: a size must be chosen; the line carries the product,
      * the quantity and the size. */
    method AddToCart(itemId: string, now: int, written: bool, failure: string)
      modifies this
      ensures old(ui).selectedSize.None? ==>
        ui == old(ui).(errorMessage := Some("Please select a size")) && store == old(store)
      ensures old(ui).selectedSize.Some? && old(ui).product.None? ==> ui == old(ui) && store == old(store)
      ensures old(ui).selectedSize.Some? && old(ui).product.Some? && written ==>
        store == old(store).(cart := old(store).cart[itemId :=
          NewCartItem(itemId, old(ui).product.value, old(ui).quantity, old(ui).selectedSize, now)])
        && ui == old(ui).(actionMessage := Some(IntToString(old(ui).quantity) + " item(s) added to cart"))
      ensures old(ui).selectedSize.Some? && old(ui).product.Some? && !written ==>
        store == old(store) && ui == old(ui).(actionMessage := Some("Failed to add to cart: " + failure))
      ensures hasUserReviewed == old(hasUserReviewed)
    {
      var ok := ValidatePickedSize();
      if !ok || ui.product.None? {
        return;
      }
      var item := NewCartItem(itemId, ui.product.value, ui.quantity, ui.selectedSize, now);
      if written {
        store := store.(cart := store.cart[itemId := item]);
        ui := ui.(actionMessage := Some(IntToString(ui.quantity) + " item(s) added to cart"));
      } else {
        ui := ui.(actionMessage := Some("Failed to add to cart: " + failure));
      }
    }

    method ClearActionMessage()
      modifies this
      ensures ui == old(ui).(actionMessage := None)
      ensures hasUserReviewed == old(hasUserReviewed) && store == old(store)
    {
      ui := ui.(actionMessage := None);
    }
  }
}
