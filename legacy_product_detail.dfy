/** The older product screen's view model: no stock, no sizes, and a rating
  * kept as a running integer average of the product's own fields. */
module LegacyProductDetail {
  import opened Common
  import opened Model

  datatype UiState = UiState(
    product: Option<Product>,
    isLoading: bool,
    errorMessage: Option<string>,
    quantity: int,
    actionMessage: Option<string>)

  const InitialUi := UiState(None, true, None, 1, None)

  /** What this view model writes, for one product and one user. */
  datatype Store = Store(
    cart: map<string, CartItem>,          // cart/{user}
    favorites: map<string, Product>,      // favorites/{user}
    favoriteFlag: Option<bool>,           // products/{id}/isFavorite
    ratings: map<string, int>,            // ratings/{id}
    summary: Option<(int, int)>)          // products/{id}/rating and reviewCount

  /** The running average after one more rating: `(rating * count + new) /
    * (count + 1)` with Kotlin's truncating division (overflow of the product
    * is not modelled), with the new count; `None` when the division is by
    * zero (a stored count of -1), which throws. */
  function RunningAverage(rating: int, reviewCount: int, newRating: int): (r: Option<(int, int)>)
    ensures r.None? <==> reviewCount == -1
    ensures r.Some? ==> r.value.1 == reviewCount + 1
    ensures r.Some? ==> r.value.0 == TruncDiv(rating * reviewCount + newRating, reviewCount + 1)
  {
    if reviewCount + 1 == 0 then None
    else Some((TruncDiv(rating * reviewCount + newRating, reviewCount + 1), reviewCount + 1))
  }

  /** With the stored average and the new rating on a scale [lo, hi] and a
    * count that is not negative, the new average stays on that scale and
    * never exceeds the exact mean. */
  lemma RunningAverageWithinScale(rating: int, reviewCount: int, newRating: int, lo: int, hi: int)
    requires 0 <= lo <= rating <= hi && lo <= newRating <= hi && reviewCount >= 0
    ensures RunningAverage(rating, reviewCount, newRating).Some?
    ensures var avg := RunningAverage(rating, reviewCount, newRating).value.0;
      lo <= avg <= hi && avg * (reviewCount + 1) <= rating * reviewCount + newRating
  {
    var n := reviewCount + 1;
    var total := rating * reviewCount + newRating;
    assert lo * reviewCount <= rating * reviewCount <= hi * reviewCount by {
      MultiplyMonotone(lo, rating, reviewCount);
      MultiplyMonotone(rating, hi, reviewCount);
    }
    assert lo * n <= total <= hi * n;
    var q := TruncDiv(total, n);
    assert q == TruncDivPositive(total, n);
    assert q * n <= total < q * n + n;
    if q < lo {
      MultiplyMonotone(q + 1, lo, n);
    }
    if q > hi {
      MultiplyMonotone(hi + 1, q, n);
    }
  }

  lemma MultiplyMonotone(a: int, b: int, n: int)
    requires a <= b && n >= 0
    ensures a * n <= b * n
  {
    assert b * n - a * n == (b - a) * n;
  }

  /** The first rating of a product with no reviews becomes its average. */
  lemma FirstRatingIsAverage(rating: int, newRating: int)
    ensures RunningAverage(rating, 0, newRating) == Some((newRating, 1))
  {
    assert TruncDivPositive(newRating, 1) == newRating;
  }

  class LegacyProductDetailViewModel {
    const productId: string
    const userKey: string
    var ui: UiState
    var store: Store

    constructor(productId: string, userKey: string, store: Store)
      ensures this.productId == productId && this.userKey == userKey
      ensures ui == InitialUi && this.store == store
    {
      this.productId := productId;
      this.userKey := userKey;
      ui := InitialUi;
      this.store := store;
    }

    method OnProductDelivered(key: string, product: Option<Product>)
      modifies this
      ensures product.Some? ==>
        ui == old(ui).(product := Some(product.value.(id := key)), isLoading := false, errorMessage := None)
      ensures product.None? ==> ui == old(ui).(isLoading := false, errorMessage := Some("Product not found"))
      ensures store == old(store)
    {
      if product.Some? {
        ui := ui.(product := Some(product.value.(id := key)), isLoading := false, errorMessage := None);
      } else {
        ui := ui.(isLoading := false, errorMessage := Some("Product not found"));
      }
    }

    method OnProductCancelled(message: string)
      modifies this
      ensures ui == old(ui).(isLoading := false, errorMessage := Some(message)) && store == old(store)
    {
      ui := ui.(isLoading := false, errorMessage := Some(message));
    }

    /** No upper bound: there is no stock here. */
    method IncrementQuantity()
      modifies this
      ensures ui == old(ui).(quantity := old(ui).quantity + 1) && store == old(store)
    {
      ui := ui.(quantity := ui.quantity + 1);
    }

    method DecrementQuantity()
      modifies this
      ensures ui == old(ui).(quantity := if old(ui).quantity > 1 then old(ui).quantity - 1 else old(ui).quantity)
      ensures old(ui).quantity >= 1 ==> ui.quantity >= 1
      ensures store == old(store)
    {
      if ui.quantity > 1 {
        ui := ui.(quantity := ui.quantity - 1);
      }
    }

    /** `toggleFavorite`, writing the `isFavorite` child of the product. */
    method ToggleFavorite(favoriteWritten: bool, flagWritten: bool, failure: string)
      modifies this
      ensures old(ui).product.None? ==> ui == old(ui) && store == old(store)
      ensures old(ui).product.Some? ==>
        var p := old(ui).product.value;
        var newStatus := !p.isFavorite;
        store.favorites == (if !favoriteWritten then old(store).favorites
                            else if newStatus then old(store).favorites[productId := p]
                            else old(store).favorites - {productId})
        && store.favoriteFlag == (if favoriteWritten && flagWritten then Some(newStatus) else old(store).favoriteFlag)
        && ui == (if favoriteWritten && flagWritten
                  then old(ui).(product := Some(p.(isFavorite := newStatus)),
                                actionMessage := Some(if newStatus then "Added to favorites" else "Removed from favorites"))
                  else old(ui).(actionMessage := Some("Failed to update favorite status: " + failure)))
      ensures store.cart == old(store).cart && store.ratings == old(store).ratings
      ensures store.summary == old(store).summary
    {
      if ui.product.None? {
        return;
      }
      var p := ui.product.value;
      var newStatus := !p.isFavorite;
      ui := ui.(product := Some(p.(isFavorite := newStatus)));
      if favoriteWritten {
        if newStatus {
          store := store.(favorites := store.favorites[productId := p]);
        } else {
          store := store.(favorites := store.favorites - {productId});
        }
      }
      if favoriteWritten && flagWritten {
        store := store.(favoriteFlag := Some(newStatus));
        ui := ui.(actionMessage := Some(if newStatus then "Added to favorites" else "Removed from favorites"));
      } else {
        ui := ui.(product := Some(ui.product.value.(isFavorite := !newStatus)),
                  actionMessage := Some("Failed to update favorite status: " + failure));
      }
    }

    /** `submitRating`: the user's rating is written, then the running
      * average and count replace the product's in one update. A failed
      * write, or the division by zero, reports "Failed to submit rating: "
      * with the error text (`divisionError` for the latter). */
    method SubmitRating(rating: int, ratingWritten: bool, summaryWritten: bool,
                        failure: string, divisionError: string)
      modifies this
      ensures old(ui).product.None? ==> ui == old(ui) && store == old(store)
      ensures old(ui).product.Some? && !ratingWritten ==>
        store == old(store) && ui == old(ui).(actionMessage := Some("Failed to submit rating: " + failure))
      ensures old(ui).product.Some? && ratingWritten ==>
        var p := old(ui).product.value;
        var next := RunningAverage(p.rating, p.reviewCount, rating);
        store.ratings == old(store).ratings[userKey := rating]
        && store.cart == old(store).cart && store.favorites == old(store).favorites
        && store.favoriteFlag == old(store).favoriteFlag
        && (next.None? ==>
              (store.summary == old(store).summary
               && ui == old(ui).(actionMessage := Some("Failed to submit rating: " + divisionError))))
        && (next.Some? && !summaryWritten ==>
              (store.summary == old(store).summary
               && ui == old(ui).(actionMessage := Some("Failed to submit rating: " + failure))))
        && (next.Some? && summaryWritten ==>
              (store.summary == next
               && ui == old(ui).(product := Some(p.(rating := next.value.0, reviewCount := next.value.1)),
                                 actionMessage := Some("Thank you for your rating!"))))
    {
      if ui.product.None? {
        return;
      }
      var p := ui.product.value;
      if !ratingWritten {
        ui := ui.(actionMessage := Some("Failed to submit rating: " + failure));
        return;
      }
      store := store.(ratings := store.ratings[userKey := rating]);
      var next := RunningAverage(p.rating, p.reviewCount, rating);
      if next.None? {
        ui := ui.(actionMessage := Some("Failed to submit rating: " + divisionError));
        return;
      }
      if !summaryWritten {
        ui := ui.(actionMessage := Some("Failed to submit rating: " + failure));
        return;
      }
      store := store.(summary := next);
      ui := ui.(product := Some(ui.product.value.(rating := next.value.0, reviewCount := next.value.1)),
                actionMessage := Some("Thank you for your rating!"));
    }

    /** `addToCart`: no size is asked for; the line has none. */
    method AddToCart(itemId: string, now: int, written: bool, failure: string)
      modifies this
      ensures old(ui).product.None? ==> ui == old(ui) && store == old(store)
      ensures old(ui).product.Some? && written ==>
        store == old(store).(cart := old(store).cart[itemId := NewCartItem(itemId, old(ui).product.value, old(ui).quantity, None, now)])
        && ui == old(ui).(actionMessage := Some(IntToString(old(ui).quantity) + " item(s) added to cart"))
      ensures old(ui).product.Some? && !written ==>
        store == old(store) && ui == old(ui).(actionMessage := Some("Failed to add to cart: " + failure))
    {
      if ui.product.None? {
        return;
      }
      var item := NewCartItem(itemId, ui.product.value, ui.quantity, None, now);
      if written {
        store := store.(cart := store.cart[itemId := item]);
        ui := ui.(actionMessage := Some(IntToString(ui.quantity) + " item(s) added to cart"));
      } else {
        ui := ui.(actionMessage := Some("Failed to add to cart: " + failure));
      }
    }

    method ClearActionMessage()
      modifies this
      ensures ui == old(ui).(actionMessage := None) && store == old(store)
    {
      ui := ui.(actionMessage := None);
    }
  }
}
