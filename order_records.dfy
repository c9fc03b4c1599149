/** Orders as stored under `orders/{uid}/{orderId}`: the record checkout
  * writes, and the three readers (order history, order detail, the admin's
  * pending list) that rebuild an `Order` field by field, each with its own
  * defaults. A read of the wrong type throws and the whole order is skipped. */
module OrderRecords {
  import opened Common
  import opened Model
  import opened Snapshot
  import opened Cart

  /** Which screen's `parseOrder` reads the record: the user's order
    * history, the user's order detail, or the admin screens (pending orders
    * and revenue, whose readers are the same). */
  datatype Dialect = History | Detail | Admin

  /** The default the reader uses for brand, image and product id. */
  function Unknown(d: Dialect): (r: string)
  {
    if d == Detail then "" else "N/A"
  }

  /** `snapshot.child(key).children`: none when the child is missing. */
  function ChildEntries(v: Value, key: string): (r: seq<Entry>)
  {
    if Child(v, key).Some? then Children(Child(v, key).value) else []
  }

  /** One child of `items`. */
  function ParseItem(d: Dialect, v: Value): (r: Option<OrderItem>)
    ensures r.Some? && !Has(v, "quantity") ==> r.value.quantity == 0
    ensures r.Some? && !Has(v, "price") ==> r.value.price == 0.0
    ensures r.Some? && !Has(v, "productId") ==> r.value.productId == Unknown(d)
    ensures r.Some? && d != Detail && !Has(v, "selectedSize") ==> r.value.selectedSize == "N/A"
    ensures r.None? ==>
      (GetString(v, "brand").Thrown? || GetString(v, "imageUrl").Thrown?
       || GetString(v, "name").Thrown? || GetDouble(v, "price").Thrown? || GetString(v, "productId").Thrown?
       || GetInt(v, "quantity").Thrown? || (d != Detail && GetString(v, "selectedSize").Thrown?))
  {
    var brand :- OrElse(GetString(v, "brand"), Unknown(d));
    var imageUrl :- OrElse(GetString(v, "imageUrl"), Unknown(d));
    var name :- OrElse(GetString(v, "name"), "");
    var price :- OrElse(GetDouble(v, "price"), 0.0);
    var productId :- OrElse(GetString(v, "productId"), Unknown(d));
    var quantity :- OrElse(GetInt(v, "quantity"), 0);
    var size :- if d == Detail then Some("") else OrElse(GetString(v, "selectedSize"), "N/A");
    Some(OrderItem(brand, imageUrl, name, price, productId, quantity, size))
  }

  /** Every child of `items`, in order; `None` as soon as one throws. */
  function ParseItems(d: Dialect, es: seq<Entry>): (r: Option<seq<OrderItem>>)
    ensures r.Some? <==> forall i :: 0 <= i < |es| ==> ParseItem(d, es[i].value).Some?
    ensures r.Some? ==> |r.value| == |es|
    ensures r.Some? ==> forall i :: 0 <= i < |es| ==> r.value[i] == ParseItem(d, es[i].value).value
  {
    if es == [] then Some([])
    else
      var first := ParseItem(d, es[0].value);
      var rest := ParseItems(d, es[1..]);
      if first.Some? && rest.Some? then Some([first.value] + rest.value) else None
  }

  /** Payment details: the `paymentDetails` node when there is one, else a
    * record holding only the method stored at the root. */
  function ParsePayment(d: Dialect, v: Value): (r: Option<PaymentDetails>)
    ensures !Has(v, "paymentDetails") ==>
      r == (var m :- OrElse(GetString(v, "paymentMethod"), "UNKNOWN"); Some(PaymentDetails(0, "", m, "")))
    ensures r.Some? ==> r.value.userId == ""
  {
    var rootMethod := GetString(v, "paymentMethod");
    match Child(v, "paymentDetails")
    case None =>
      var m :- OrElse(rootMethod, "UNKNOWN");
      Some(PaymentDetails(0, "", m, ""))
    case Some(node) =>
      var time :- OrElse(GetLong(node, "paymentTime"), 0);
      var transaction :- OrElse(GetString(node, "transactionId"), "");
      var m :- if d == Detail then OrElse(rootMethod, "UNKNOWN")
               else (var nested :- Nullable(GetString(node, "paymentMethod"));
                     if nested.Some? then Some(nested.value) else OrElse(rootMethod, "N/A"));
      Some(PaymentDetails(time, transaction, m, ""))
  }

  /** The shipping address: every field for the detail screen, only name,
    * street and city for the others; the empty address when none is stored. */
  function ParseAddress(d: Dialect, v: Value): (r: Option<ShippingAddress>)
    ensures !Has(v, "shippingAddress") ==> r == Some(EmptyAddress)
    ensures r.Some? && d != Detail ==>
      r.value.phoneNumber == "" && r.value.state == "" && r.value.zipCode == "" && !r.value.isDefault
  {
    match Child(v, "shippingAddress")
    case None => Some(EmptyAddress)
    case Some(node) =>
      var street :- OrElse(GetString(node, "address"), Unknown(d));
      var city :- OrElse(GetString(node, "city"), Unknown(d));
      var fullName :- OrElse(GetString(node, "fullName"), Unknown(d));
      if d == Detail then
        var state :- OrElse(GetString(node, "state"), "");
        var zip :- OrElse(GetString(node, "zipCode"), "");
        var phone :- OrElse(GetString(node, "phoneNumber"), "");
        var isDefault :- OrElse(GetBool(node, "isDefault"), false);
        Some(ShippingAddress(fullName, phone, street, city, state, zip, isDefault))
      else
        Some(EmptyAddress.(fullName := fullName, address := street, city := city))
  }

  /** `parseOrder(snapshot)` for the order stored under `key`. */
  function ParseOrderOf(d: Dialect, key: string, v: Value): (r: Option<Order>)
    ensures r.Some? ==> r.value.orderId == key
    ensures r.Some? ==> |r.value.items| == |ChildEntries(v, "items")|
    ensures r.Some? && !Has(v, "status") ==> r.value.status == "UNKNOWN"
    ensures r.Some? && !Has(v, "timestamp") ==> r.value.timestamp == 0
    ensures r.Some? && !Has(v, "total") ==> r.value.total == 0.0
    ensures r.Some? && (d != History || !Has(v, "adminConfirmed")) ==> !r.value.adminConfirmed
    ensures r.Some? && d == History && GetBool(v, "adminConfirmed").Found? ==>
      r.value.adminConfirmed == GetBool(v, "adminConfirmed").value
    ensures r.Some? && GetString(v, "status").Found? ==> r.value.status == GetString(v, "status").value
    ensures r.Some? ==> Some(r.value.paymentDetails) == ParsePayment(d, v)
    ensures r.Some? ==> Some(r.value.shippingAddress) == ParseAddress(d, v)
  {
    var items :- ParseItems(d, ChildEntries(v, "items"));
    OrderWithItems(d, key, v, items)
  }

  /** The fields of the order other than its lines. */
  function OrderWithItems(d: Dialect, key: string, v: Value, items: seq<OrderItem>): (r: Option<Order>)
    ensures r.Some? ==> r.value.orderId == key && r.value.items == items
    ensures r.Some? && !Has(v, "status") ==> r.value.status == "UNKNOWN"
    ensures r.Some? && !Has(v, "timestamp") ==> r.value.timestamp == 0
    ensures r.Some? && !Has(v, "total") ==> r.value.total == 0.0
    ensures r.Some? && (d != History || !Has(v, "adminConfirmed")) ==> !r.value.adminConfirmed
    ensures r.Some? && d == History && GetBool(v, "adminConfirmed").Found? ==>
      r.value.adminConfirmed == GetBool(v, "adminConfirmed").value
    ensures r.Some? && GetString(v, "status").Found? ==> r.value.status == GetString(v, "status").value
    ensures r.Some? ==> Some(r.value.paymentDetails) == ParsePayment(d, v)
    ensures r.Some? ==> Some(r.value.shippingAddress) == ParseAddress(d, v)
  {
    var status :- OrElse(GetString(v, "status"), "UNKNOWN");
    var payment :- ParsePayment(d, v);
    var address :- ParseAddress(d, v);
    var shipping :- OrElse(GetDouble(v, "shipping"), 0.0);
    var subtotal :- OrElse(GetDouble(v, "subtotal"), 0.0);
    var tax :- OrElse(GetDouble(v, "tax"), 0.0);
    var total :- OrElse(GetDouble(v, "total"), 0.0);
    var timestamp :- OrElse(GetLong(v, "timestamp"), 0);
    var confirmed :- if d == History then OrElse(GetBool(v, "adminConfirmed"), false) else Some(false);
    Some(Order(key, items, payment, address, status, shipping, subtotal, tax, total, timestamp, confirmed))
  }

  /** `parseOrder` as written, with its loop over the lines. */
  method ParseOrder(d: Dialect, key: string, v: Value) returns (r: Option<Order>)
    ensures r == ParseOrderOf(d, key, v)
  {
    var es := ChildEntries(v, "items");
    var items: seq<OrderItem> := [];
    var i := 0;
    while i < |es|
      invariant 0 <= i <= |es| && |items| == i
      invariant forall j :: 0 <= j < i ==> ParseItem(d, es[j].value) == Some(items[j])
    {
      var item := ParseItem(d, es[i].value);
      if item.None? {
        return None;
      }
      items := items + [item.value];
      i := i + 1;
    }
    var all := ParseItems(d, es);
    assert all.Some?;
    assert all.value == items;
    r := OrderWithItems(d, key, v, items);
  }

  /** The orders that parse among the children of an orders node, in
    * snapshot order; the rest are skipped. */
  function ParsedOrders(d: Dialect, es: seq<Entry>): (r: seq<Order>)
    ensures |r| <= |es|
  {
    if es == [] then [] else Kept(d, es[0]) + ParsedOrders(d, es[1..])
  }

  /** The order one child contributes: its parse, or nothing. */
  function Kept(d: Dialect, e: Entry): (r: seq<Order>)
    ensures |r| <= 1
    ensures r == [] <==> ParseOrderOf(d, e.key, e.value).None?
    ensures r != [] ==> r[0] == ParseOrderOf(d, e.key, e.value).value
  {
    var o := ParseOrderOf(d, e.key, e.value);
    if o.Some? then [o.value] else []
  }

  /** Exactly the parsable children are kept: each kept order is the parse
    * of a child, and each child that parses is kept. */
  lemma {:induction false} ParsedOrdersExactly(d: Dialect, es: seq<Entry>)
    ensures forall o :: o in ParsedOrders(d, es) <==>
      exists i :: 0 <= i < |es| && ParseOrderOf(d, es[i].key, es[i].value) == Some(o)
  {
    if es != [] {
      ParsedOrdersExactly(d, es[1..]);
      forall o
        ensures o in ParsedOrders(d, es) <==>
          exists i :: 0 <= i < |es| && ParseOrderOf(d, es[i].key, es[i].value) == Some(o)
      {
        if o in ParsedOrders(d, es) && ParseOrderOf(d, es[0].key, es[0].value) != Some(o) {
          var i :| 0 <= i < |es[1..]| && ParseOrderOf(d, es[1..][i].key, es[1..][i].value) == Some(o);
          assert es[i + 1] == es[1..][i];
        }
        if exists i :: 0 <= i < |es| && ParseOrderOf(d, es[i].key, es[i].value) == Some(o) {
          var i :| 0 <= i < |es| && ParseOrderOf(d, es[i].key, es[i].value) == Some(o);
          if i > 0 {
            assert es[1..][i - 1] == es[i];
          }
        }
      }
    }
  }

  /** Reading the children one by one, as the screens' loops do. */
  lemma ParsedOrdersStep(d: Dialect, es: seq<Entry>, i: nat)
    requires i < |es|
    ensures ParsedOrders(d, es[..i + 1]) == ParsedOrders(d, es[..i]) + Kept(d, es[i])
  {
    ParsedOrdersAppend(d, es[..i], es[i]);
    assert es[..i + 1] == es[..i] + [es[i]];
  }

  lemma {:induction false} ParsedOrdersAppend(d: Dialect, es: seq<Entry>, e: Entry)
    ensures ParsedOrders(d, es + [e]) == ParsedOrders(d, es) + Kept(d, e)
  {
    if es == [] {
      assert es + [e] == [e];
    } else {
      var rest := es[1..];
      assert (es + [e])[0] == es[0];
      assert (es + [e])[1..] == rest + [e];
      ParsedOrdersAppend(d, rest, e);
      calc {
        ParsedOrders(d, es + [e]);
        Kept(d, es[0]) + ParsedOrders(d, rest + [e]);
        Kept(d, es[0]) + (ParsedOrders(d, rest) + Kept(d, e));
        (Kept(d, es[0]) + ParsedOrders(d, rest)) + Kept(d, e);
      }
    }
  }

  // ----- the record checkout writes ----------------------------------------------------

  /** One line of a placed order: no size is written. */
  function PlacedItemValue(c: CartItem): (r: Value)
  {
    Tree([Entry("productId", Str(c.productId)), Entry("name", Str(c.name)), Entry("brand", Str(c.brand)),
          Entry("price", Dbl(c.price)), Entry("quantity", Num(c.quantity)), Entry("imageUrl", Str(c.imageUrl))])
  }

  /** A list is stored as children keyed "0", "1", ... in list order. */
  function PlacedItems(items: seq<CartItem>, next: nat): (r: seq<Entry>)
    ensures |r| == |items|
    ensures forall i :: 0 <= i < |items| ==> r[i].value == PlacedItemValue(items[i])
  {
    if items == [] then []
    else [Entry(NatToString(next), PlacedItemValue(items[0]))] + PlacedItems(items[1..], next + 1)
  }

  function AddressValue(a: Address): (r: Value)
  {
    Tree([Entry("fullName", Str(a.fullName)), Entry("phoneNumber", Str(a.phoneNumber)),
          Entry("address", Str(a.address)), Entry("city", Str(a.city)), Entry("state", Str(a.state)),
          Entry("zipCode", Str(a.zipCode)), Entry("isDefault", Bool(a.isDefault))])
  }

  /** The order `placeOrder` writes: the lines, the four totals, the payment
    * method's name, status "PENDING", the address and the time. */
  function PlacedOrderValue(items: seq<CartItem>, t: Totals, paymentMethod: string, a: Address, now: int): (r: Value)
  {
    Tree([Entry("items", Tree(PlacedItems(items, 0))),
          Entry("subtotal", Dbl(t.subtotal)), Entry("tax", Dbl(t.tax)), Entry("shipping", Dbl(t.shipping)),
          Entry("total", Dbl(t.total)), Entry("paymentMethod", Str(paymentMethod)),
          Entry("status", Str("PENDING")), Entry("shippingAddress", AddressValue(a)),
          Entry("timestamp", Num(now))])
  }

  /** How a reader sees one placed line: its size is the reader's default. */
  function ReadBackItem(d: Dialect, c: CartItem): (r: OrderItem)
  {
    OrderItem(c.brand, c.imageUrl, c.name, c.price, c.productId, c.quantity, if d == Detail then "" else "N/A")
  }

  /** How a reader sees the placed address. */
  function ReadBackAddress(d: Dialect, a: Address): (r: ShippingAddress)
  {
    if d == Detail then ShippingAddress(a.fullName, a.phoneNumber, a.address, a.city, a.state, a.zipCode, a.isDefault)
    else EmptyAddress.(fullName := a.fullName, address := a.address, city := a.city)
  }

  function ReadBackItems(d: Dialect, items: seq<CartItem>): (r: seq<OrderItem>)
    ensures |r| == |items|
  {
    seq(|items|, i requires 0 <= i < |items| => ReadBackItem(d, items[i]))
  }

  /** A placed line reads back with its own fields and the reader's size. */
  lemma PlacedItemReadBack(d: Dialect, c: CartItem)
    requires IntMin <= c.quantity <= IntMax
    ensures ParseItem(d, PlacedItemValue(c)) == Some(ReadBackItem(d, c))
  {
    var v := PlacedItemValue(c);
    var es := Children(v);
    LookupFirst(es, 0, "productId");
    LookupFirst(es, 1, "name");
    LookupFirst(es, 2, "brand");
    LookupFirst(es, 3, "price");
    LookupFirst(es, 4, "quantity");
    LookupFirst(es, 5, "imageUrl");
    assert GetString(v, "brand") == Found(c.brand);
    assert GetString(v, "imageUrl") == Found(c.imageUrl);
    assert GetString(v, "name") == Found(c.name);
    assert GetDouble(v, "price") == Found(c.price);
    assert GetString(v, "productId") == Found(c.productId);
    assert GetInt(v, "quantity") == Found(c.quantity);
    LookupMissing(es, "selectedSize");
  }

  lemma PlacedItemsReadBack(d: Dialect, items: seq<CartItem>, next: nat)
    requires forall i :: 0 <= i < |items| ==> IntMin <= items[i].quantity <= IntMax
    ensures ParseItems(d, PlacedItems(items, next)) == Some(ReadBackItems(d, items))
  {
    var es := PlacedItems(items, next);
    forall i | 0 <= i < |items|
      ensures ParseItem(d, es[i].value) == Some(ReadBackItem(d, items[i]))
    {
      PlacedItemReadBack(d, items[i]);
    }
    assert ParseItems(d, es).value == ReadBackItems(d, items);
  }

  /** A placed address reads back whole for the detail screen, and as name,
    * street and city for the others. */
  lemma PlacedAddressReadBack(d: Dialect, v: Value, a: Address)
    requires Child(v, "shippingAddress") == Some(AddressValue(a))
    ensures ParseAddress(d, v) == Some(ReadBackAddress(d, a))
  {
    var es := Children(AddressValue(a));
    LookupFirst(es, 0, "fullName");
    LookupFirst(es, 1, "phoneNumber");
    LookupFirst(es, 2, "address");
    LookupFirst(es, 3, "city");
    LookupFirst(es, 4, "state");
    LookupFirst(es, 5, "zipCode");
    LookupFirst(es, 6, "isDefault");
  }

  /** Every reader gets back what checkout wrote: the lines (without their
    * size), the totals, the method's name with no payment time or
    * transaction, status "PENDING", the time, and not yet confirmed; the
    * history and admin readers keep only name, street and city of the
    * address. */
  lemma PlacedOrderReadBack(d: Dialect, key: string, items: seq<CartItem>, t: Totals,
                            paymentMethod: string, a: Address, now: int)
    requires forall i :: 0 <= i < |items| ==> IntMin <= items[i].quantity <= IntMax
    requires LongMin <= now <= LongMax
    ensures ParseOrderOf(d, key, PlacedOrderValue(items, t, paymentMethod, a, now)) ==
      Some(Order(key, ReadBackItems(d, items), PaymentDetails(0, "", paymentMethod, ""),
                 ReadBackAddress(d, a), "PENDING", t.shipping, t.subtotal, t.tax, t.total, now, false))
  {
    var v := PlacedOrderValue(items, t, paymentMethod, a, now);
    PlacedOrderTotals(items, t, paymentMethod, a, now);
    PlacedOrderHeader(items, t, paymentMethod, a, now);
    PlacedItemsReadBack(d, items, 0);
    PlacedAddressReadBack(d, v, a);
  }

  lemma PlacedOrderTotals(items: seq<CartItem>, t: Totals, paymentMethod: string, a: Address, now: int)
    ensures var v := PlacedOrderValue(items, t, paymentMethod, a, now);
      ChildEntries(v, "items") == PlacedItems(items, 0)
      && Child(v, "subtotal") == Some(Dbl(t.subtotal)) && Child(v, "tax") == Some(Dbl(t.tax))
      && Child(v, "shipping") == Some(Dbl(t.shipping)) && Child(v, "total") == Some(Dbl(t.total))
  {
    var es := Children(PlacedOrderValue(items, t, paymentMethod, a, now));
    LookupFirst(es, 0, "items");
    LookupFirst(es, 1, "subtotal");
    LookupFirst(es, 2, "tax");
    LookupFirst(es, 3, "shipping");
    LookupFirst(es, 4, "total");
  }

  lemma PlacedOrderHeader(items: seq<CartItem>, t: Totals, paymentMethod: string, a: Address, now: int)
    ensures var v := PlacedOrderValue(items, t, paymentMethod, a, now);
      Child(v, "paymentMethod") == Some(Str(paymentMethod)) && Child(v, "status") == Some(Str("PENDING"))
      && Child(v, "shippingAddress") == Some(AddressValue(a)) && Child(v, "timestamp") == Some(Num(now))
      && !Has(v, "paymentDetails") && !Has(v, "adminConfirmed")
  {
    var es := Children(PlacedOrderValue(items, t, paymentMethod, a, now));
    LookupFirst(es, 5, "paymentMethod");
    LookupFirst(es, 6, "status");
    LookupFirst(es, 7, "shippingAddress");
    LookupFirst(es, 8, "timestamp");
    LookupMissing(es, "paymentDetails");
    LookupMissing(es, "adminConfirmed");
  }
}
