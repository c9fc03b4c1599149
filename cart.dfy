/** The cart: the price summary shown under it (and again at checkout), and
  * the cart view model that lists a user's lines, newest first, and edits
  * them in the database. */
module Cart {
  import opened Common
  import opened Model
  import opened Sorting

  // ----- pricing ------------------------------------------------------------------

  /** The four figures of the price summary. */
  datatype Totals = Totals(subtotal: real, tax: real, shipping: real, total: real)

  const TaxRate: real := 0.1
  const ShippingFee: real := 4.99
  const NoTotals := Totals(0.0, 0.0, 0.0, 0.0)

  /** What one line costs: its price times its quantity (the line's stored
    * `subtotal` field is not used). */
  function LineAmount(c: CartItem): (r: real)
  {
    c.price * c.quantity as real
  }

  function Subtotal(items: seq<CartItem>): (r: real)
  {
    if items == [] then 0.0 else LineAmount(items[0]) + Subtotal(items[1..])
  }

  /** Tax is a tenth of the subtotal, shipping is charged only on a positive
    * subtotal, and the total adds the three. */
  function TotalsFor(subtotal: real): (t: Totals)
    ensures t.subtotal == subtotal && t.tax == subtotal * TaxRate
    ensures subtotal > 0.0 ==> t.shipping == ShippingFee
    ensures subtotal <= 0.0 ==> t.shipping == 0.0
    ensures t.total == t.subtotal + t.tax + t.shipping
  {
    var tax := subtotal * TaxRate;
    var shipping := if subtotal > 0.0 then ShippingFee else 0.0;
    Totals(subtotal, tax, shipping, subtotal + tax + shipping)
  }

  function CartTotals(items: seq<CartItem>): (r: Totals)
  {
    TotalsFor(Subtotal(items))
  }

  /** An empty cart costs nothing, not even shipping. */
  lemma EmptyCartTotals()
    ensures CartTotals([]) == NoTotals
  {
  }

  /** A non-empty cart of positive lines pays 110% of its subtotal plus the
    * fee; any cart pays at least its subtotal when no line is negative. */
  lemma TotalsShape(items: seq<CartItem>)
    requires forall i :: 0 <= i < |items| ==> items[i].price >= 0.0 && items[i].quantity >= 0
    ensures Subtotal(items) >= 0.0
    ensures CartTotals(items).total >= CartTotals(items).subtotal
    ensures Subtotal(items) > 0.0 ==> CartTotals(items).total == Subtotal(items) * 1.1 + ShippingFee
  {
    SubtotalNonNegative(items);
  }

  lemma {:induction false} SubtotalNonNegative(items: seq<CartItem>)
    requires forall i :: 0 <= i < |items| ==> items[i].price >= 0.0 && items[i].quantity >= 0
    ensures Subtotal(items) >= 0.0
  {
    if items != [] {
      SubtotalNonNegative(items[1..]);
    }
  }

  lemma {:induction false} SubtotalConcat(a: seq<CartItem>, b: seq<CartItem>)
    ensures Subtotal(a + b) == Subtotal(a) + Subtotal(b)
  {
    if a == [] {
      assert a + b == b;
    } else {
      assert (a + b)[1..] == a[1..] + b;
      SubtotalConcat(a[1..], b);
    }
  }

  /** The subtotal does not depend on the order of the lines. */
  lemma {:induction false} SubtotalPermutation(a: seq<CartItem>, b: seq<CartItem>)
    requires multiset(a) == multiset(b)
    ensures Subtotal(a) == Subtotal(b)
    decreases |a|
  {
    if a == [] {
      assert |b| == |multiset(b)| == 0;
    } else {
      var x := a[0];
      assert x in multiset(b);
      var k :| 0 <= k < |b| && b[k] == x;
      var rest := b[..k] + b[k + 1..];
      assert b == b[..k] + [x] + b[k + 1..];
      assert a == [x] + a[1..];
      assert multiset(b) == multiset(b[..k]) + multiset{x} + multiset(b[k + 1..]);
      assert multiset(a) == multiset{x} + multiset(a[1..]);
      assert multiset(rest) == multiset(b[..k]) + multiset(b[k + 1..]);
      assert multiset(a[1..]) == multiset(a) - multiset{x};
      assert multiset(rest) == multiset(b) - multiset{x};
      SubtotalPermutation(a[1..], rest);
      SubtotalConcat(b[..k] + [x], b[k + 1..]);
      SubtotalConcat(b[..k], [x]);
      SubtotalConcat(b[..k], b[k + 1..]);
    }
  }

  // ----- the cart view model ---------------------------------------------------------

  /** One child of `cart/{user}`: its key and the line it holds (`None`: null). */
  datatype CartEntry = CartEntry(key: string, item: Option<CartItem>)

  /** The non-null lines, each with its key as id, in snapshot order. */
  function DeliveredLines(entries: seq<CartEntry>): (r: seq<CartItem>)
    ensures |r| <= |entries|
  {
    if entries == [] then []
    else if entries[0].item.Some? then [entries[0].item.value.(id := entries[0].key)] + DeliveredLines(entries[1..])
    else DeliveredLines(entries[1..])
  }

  function LineTime(c: CartItem): (r: Key)
  {
    IntKey(c.timestamp)
  }

  /** Lines as displayed: newest first, ties in snapshot order. */
  function NewestLinesFirst(items: seq<CartItem>): (r: seq<CartItem>)
  {
    SortBy(LineTime, true, items)
  }

  /** The displayed order changes the lines' order only, so the totals of the
    * displayed list are the totals computed before sorting. */
  lemma DisplayedTotals(items: seq<CartItem>)
    ensures multiset(NewestLinesFirst(items)) == multiset(items)
    ensures CartTotals(NewestLinesFirst(items)) == CartTotals(items)
    ensures forall i, j :: 0 <= i < j < |NewestLinesFirst(items)| ==>
      NewestLinesFirst(items)[i].timestamp >= NewestLinesFirst(items)[j].timestamp
  {
    var r := NewestLinesFirst(items);
    SortByCorrect(LineTime, true, items);
    SubtotalPermutation(r, items);
    forall i, j | 0 <= i < j < |r|
      ensures r[i].timestamp >= r[j].timestamp
    {
      NotBeforeInt(LineTime, true, r[i], r[j], r[i].timestamp, r[j].timestamp);
    }
  }

  datatype CartUi = CartUi(
    cartItems: seq<CartItem>,
    isLoading: bool,
    errorMessage: Option<string>,
    totals: Totals,
    actionMessage: Option<string>)

  const InitialCartUi := CartUi([], true, None, NoTotals, None)

  /** A `quantity` written under a key that holds no line creates a node
    * with that field only: every other field reads back at its default. */
  const BlankLine := CartItem("", "", "", 0.0, 1, None, "", "", 0, 0.0)

  class CartViewModel {
    /** `cart/{user}`: line id to line. */
    var cart: map<string, CartItem>
    var ui: CartUi

    constructor(cart: map<string, CartItem>)
      ensures ui == InitialCartUi && this.cart == cart
    {
      this.cart := cart;
      ui := InitialCartUi;
    }

    /** The cart listener delivered `cart/{user}`: totals from the lines as
      * delivered, lines shown newest first. */
    method OnCartDelivered(entries: seq<CartEntry>)
      modifies this
      ensures ui == old(ui).(cartItems := NewestLinesFirst(DeliveredLines(entries)), isLoading := false,
                             errorMessage := None, totals := CartTotals(DeliveredLines(entries)))
      ensures ui.totals == CartTotals(ui.cartItems)
      ensures cart == old(cart)
    {
      var lines: seq<CartItem> := [];
      var i := 0;
      while i < |entries|
        invariant 0 <= i <= |entries|
        invariant lines + DeliveredLines(entries[i..]) == DeliveredLines(entries)
      {
        assert entries[i..][1..] == entries[i + 1..];
        if entries[i].item.Some? {
          lines := lines + [entries[i].item.value.(id := entries[i].key)];
        }
        i := i + 1;
      }
      assert entries[i..] == [];
      assert lines == DeliveredLines(entries);
      var totals := CartTotals(lines);
      DisplayedTotals(lines);
      ui := ui.(cartItems := NewestLinesFirst(lines), isLoading := false, errorMessage := None, totals := totals);
    }

    method OnCartCancelled(message: string)
      modifies this
      ensures ui == old(ui).(isLoading := false, errorMessage := Some(message)) && cart == old(cart)
    {
      ui := ui.(isLoading := false, errorMessage := Some(message));
    }

    /** `updateQuantity`: a quantity of zero or less removes the line;
      * otherwise only the stored quantity changes. */
    method UpdateQuantity(item: CartItem, newQuantity: int, written: bool, failure: string)
      modifies this
      ensures newQuantity <= 0 && written ==>
        cart == old(cart) - {item.id} && ui == old(ui).(actionMessage := Some("Item removed from cart"))
      ensures newQuantity <= 0 && !written ==>
        cart == old(cart) && ui == old(ui).(actionMessage := Some("Failed to remove item: " + failure))
      ensures newQuantity > 0 && written ==>
        ui == old(ui).(actionMessage := Some("Quantity updated"))
        && cart == old(cart)[item.id := (if item.id in old(cart) then old(cart)[item.id] else BlankLine).(quantity := newQuantity)]
      ensures newQuantity > 0 && !written ==>
        cart == old(cart) && ui == old(ui).(actionMessage := Some("Failed to update quantity: " + failure))
    {
      if newQuantity <= 0 {
        RemoveCartItem(item, written, failure);
        return;
      }
      if written {
        var line := if item.id in cart then cart[item.id] else BlankLine;
        cart := cart[item.id := line.(quantity := newQuantity)];
        ui := ui.(actionMessage := Some("Quantity updated"));
      } else {
        ui := ui.(actionMessage := Some("Failed to update quantity: " + failure));
      }
    }

    method RemoveCartItem(item: CartItem, written: bool, failure: string)
      modifies this
      ensures written ==> cart == old(cart) - {item.id} && ui == old(ui).(actionMessage := Some("Item removed from cart"))
      ensures !written ==> cart == old(cart) && ui == old(ui).(actionMessage := Some("Failed to remove item: " + failure))
    {
      if written {
        cart := cart - {item.id};
        ui := ui.(actionMessage := Some("Item removed from cart"));
      } else {
        ui := ui.(actionMessage := Some("Failed to remove item: " + failure));
      }
    }

    method ClearCart(written: bool, failure: string)
      modifies this
      ensures written ==> cart == map[] && ui == old(ui).(actionMessage := Some("Cart cleared"))
      ensures !written ==> cart == old(cart) && ui == old(ui).(actionMessage := Some("Failed to clear cart: " + failure))
    {
      if written {
        cart := map[];
        ui := ui.(actionMessage := Some("Cart cleared"));
      } else {
        ui := ui.(actionMessage := Some("Failed to clear cart: " + failure));
      }
    }

    method ClearActionMessage()
      modifies this
      ensures ui == old(ui).(actionMessage := None) && cart == old(cart)
    {
      ui := ui.(actionMessage := None);
    }
  }
}
