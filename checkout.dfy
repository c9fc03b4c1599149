/** Checkout: the order screen's view model loads the user's cart, prices it
  * like the cart screen, lets the user pick a payment method, and places the
  * order under `orders/{user}/{orderId}`, then empties the cart. */
module Checkout {
  import opened Common
  import opened Model
  import opened Snapshot
  import opened Cart
  import opened OrderRecords

  datatype PaymentMethod = Cod | ZaloPay | GooglePay

  /** The label shown to the user. */
  function DisplayName(m: PaymentMethod): (r: string)
  {
    match m
    case Cod => "Cash On Delivery"
    case ZaloPay => "ZaloPay"
    case GooglePay => "Google Pay"
  }

  /** The enum constant's name, which is what the order record stores. */
  function EnumName(m: PaymentMethod): (r: string)
  {
    match m
    case Cod => "COD"
    case ZaloPay => "ZALO_PAY"
    case GooglePay => "GOOGLE_PAY"
  }

  /** Both the label and the stored name tell the methods apart. */
  lemma PaymentNamesDistinct(m1: PaymentMethod, m2: PaymentMethod)
    ensures DisplayName(m1) == DisplayName(m2) <==> m1 == m2
    ensures EnumName(m1) == EnumName(m2) <==> m1 == m2
  {
    if m1 != m2 {
      assert DisplayName(m1)[0] != DisplayName(m2)[0] || |DisplayName(m1)| != |DisplayName(m2)|;
      assert EnumName(m1)[0] != EnumName(m2)[0] || |EnumName(m1)| != |EnumName(m2)|;
    }
  }

  datatype OrderUi = OrderUi(
    cartItems: seq<CartItem>,
    isLoading: bool,
    errorMessage: Option<string>,
    totals: Totals,
    selectedPaymentMethod: PaymentMethod,
    actionMessage: Option<string>,
    orderPlaced: bool,
    orderId: Option<string>,
    isProcessing: bool)

  const InitialOrderUi := OrderUi([], true, None, NoTotals, Cod, None, false, None, false)

  /** What checkout reads and writes for the signed-in user. */
  datatype Store = Store(
    cart: seq<CartEntry>,               // cart/{user}, in snapshot order
    addresses: map<string, Address>,    // users/{user}/addresses
    orders: map<string, Value>)         // orders/{user}

  /** `getAddressById`: the stored address decoded into the `Address` class,
    * with its key as id; nothing when there is none or the read fails. The
    * class's `isDefault` property maps to a `default` child, so the stored
    * `isDefault` child is never read and the decoded flag keeps its default. */
  function AddressById(addresses: map<string, Address>, addressId: string, readFails: bool): (r: Option<Address>)
    ensures r.Some? <==> !readFails && addressId in addresses
    ensures r.Some? ==> r.value.id == addressId && !r.value.isDefault
    ensures r.Some? ==> r.value.(id := addresses[addressId].id, isDefault := addresses[addressId].isDefault)
                        == addresses[addressId]
  {
    if readFails || addressId !in addresses then None
    else Some(addresses[addressId].(id := addressId, isDefault := false))
  }

  class OrderViewModel {
    var ui: OrderUi
    var store: Store

    /** The shown totals are always those of the shown lines. */
    predicate Valid()
      reads this
    {
      ui.totals == CartTotals(ui.cartItems)
    }

    /** The load `init` asks for finds `isLoading` already set and does
      * nothing: the screen starts with no lines until a forced reload. */
    constructor(store: Store)
      ensures ui == InitialOrderUi && this.store == store
      ensures Valid()
    {
      ui := InitialOrderUi;
      this.store := store;
      new;
      EmptyCartTotals();
      LoadCartItems(false, true, "");
    }

    /** `loadCartItems(forceReload)`: skipped while a load is marked in
      * progress unless forced; otherwise the cart's non-null lines, in
      * stored order, with their totals. */
    method LoadCartItems(forceReload: bool, readSucceeds: bool, failure: string)
      modifies this
      ensures old(ui).isLoading && !forceReload ==> ui == old(ui)
      ensures !(old(ui).isLoading && !forceReload) && readSucceeds ==>
        ui == old(ui).(cartItems := DeliveredLines(store.cart), isLoading := false,
                       totals := CartTotals(DeliveredLines(store.cart)))
      ensures !(old(ui).isLoading && !forceReload) && !readSucceeds ==>
        ui == old(ui).(isLoading := false, errorMessage := Some("Failed to load cart items: " + failure))
      ensures store == old(store)
      ensures old(Valid()) ==> Valid()
    {
      if ui.isLoading && !forceReload {
        return;
      }
      ui := ui.(isLoading := true);
      if !readSucceeds {
        ui := ui.(isLoading := false, errorMessage := Some("Failed to load cart items: " + failure));
        return;
      }
      var lines: seq<CartItem> := [];
      var i := 0;
      while i < |store.cart|
        invariant 0 <= i <= |store.cart|
        invariant lines + DeliveredLines(store.cart[i..]) == DeliveredLines(store.cart)
      {
        assert store.cart[i..][1..] == store.cart[i + 1..];
        if store.cart[i].item.Some? {
          lines := lines + [store.cart[i].item.value.(id := store.cart[i].key)];
        }
        i := i + 1;
      }
      assert store.cart[i..] == [];
      assert lines == DeliveredLines(store.cart);
      ui := ui.(cartItems := lines, isLoading := false, totals := CartTotals(lines));
    }

    method RecalculateOrderTotals()
      modifies this
      ensures ui == old(ui).(totals := CartTotals(old(ui).cartItems)) && store == old(store)
      ensures Valid()
    {
      ui := ui.(totals := CartTotals(ui.cartItems));
    }

    method SelectPaymentMethod(m: PaymentMethod)
      modifies this
      ensures ui == old(ui).(selectedPaymentMethod := m) && store == old(store)
      ensures old(Valid()) ==> Valid()
    {
      ui := ui.(selectedPaymentMethod := m);
    }

    /** `placeOrder(addressId)`. An empty cart is refused. Otherwise the
      * address is fetched; the order record (lines, shown totals, method
      * name, "PENDING", address, time) is written under the new `orderId`,
      * then the cart is removed. Cash and Google Pay finish here; ZaloPay
      * keeps processing and only records the order id. */
    method PlaceOrder(addressId: string, addressReadFails: bool, orderId: string, now: int,
                      orderWritten: bool, cartRemoved: bool, failure: string)
      modifies this
      ensures old(ui).cartItems == [] ==>
        ui == old(ui).(actionMessage := Some("Your cart is empty")) && store == old(store)
      ensures old(ui).cartItems != [] && AddressById(old(store).addresses, addressId, addressReadFails).None? ==>
        store == old(store)
        && ui == old(ui).(isLoading := false, isProcessing := false, actionMessage := Some("Failed to retrieve address"))
      ensures old(ui).cartItems != [] && AddressById(old(store).addresses, addressId, addressReadFails).Some? ==>
        var a := AddressById(old(store).addresses, addressId, addressReadFails).value;
        var record := PlacedOrderValue(old(ui).cartItems, old(ui).totals,
                                       EnumName(old(ui).selectedPaymentMethod), a, now);
        store.addresses == old(store).addresses
        && store.orders == (if orderWritten then old(store).orders[orderId := record] else old(store).orders)
        && store.cart == (if orderWritten && cartRemoved then [] else old(store).cart)
        && ui == (if !(orderWritten && cartRemoved)
                  then old(ui).(isLoading := false, isProcessing := false,
                                errorMessage := Some("Failed to place order: " + failure))
                  else if old(ui).selectedPaymentMethod != ZaloPay
                  then old(ui).(isLoading := false, isProcessing := false, orderPlaced := true,
                                orderId := Some(orderId), actionMessage := Some("Order placed successfully!"))
                  else old(ui).(isLoading := true, isProcessing := true, orderId := Some(orderId)))
      ensures old(Valid()) ==> Valid()
    {
      var current := ui;
      if current.cartItems == [] {
        ui := ui.(actionMessage := Some("Your cart is empty"));
        return;
      }
      ui := ui.(isLoading := true, isProcessing := true);
      var address := AddressById(store.addresses, addressId, addressReadFails);
      if address.None? {
        ui := ui.(isLoading := false, isProcessing := false, actionMessage := Some("Failed to retrieve address"));
        return;
      }
      var record := PlacedOrderValue(current.cartItems, current.totals,
                                     EnumName(current.selectedPaymentMethod), address.value, now);
      if !orderWritten {
        ui := ui.(isLoading := false, isProcessing := false, errorMessage := Some("Failed to place order: " + failure));
        return;
      }
      store := store.(orders := store.orders[orderId := record]);
      if !cartRemoved {
        ui := ui.(isLoading := false, isProcessing := false, errorMessage := Some("Failed to place order: " + failure));
        return;
      }
      store := store.(cart := []);
      if current.selectedPaymentMethod != ZaloPay {
        ui := ui.(isLoading := false, isProcessing := false, orderPlaced := true,
                  orderId := Some(orderId), actionMessage := Some("Order placed successfully!"));
      } else {
        ui := ui.(orderId := Some(orderId));
      }
    }

    /** `initiateZaloPayPayment`: the order id and amount handed to the
      * payment SDK, or nothing before an order exists. */
    method InitiateZaloPayPayment() returns (request: Option<(string, real)>)
      ensures ui.orderId.None? ==> request.None?
      ensures ui.orderId.Some? ==> request == Some((ui.orderId.value, ui.totals.total))
    {
      if ui.orderId.None? {
        return None;
      }
      request := Some((ui.orderId.value, ui.totals.total));
    }

    method ClearActionMessage()
      modifies this
      ensures ui == old(ui).(actionMessage := None) && store == old(store)
      ensures old(Valid()) ==> Valid()
    {
      ui := ui.(actionMessage := None);
    }
  }

  /** A placed order, read back by the order history, carries the lines
    * that were shown (quantity, price, product) and the totals computed
    * from them, the method's stored name, and status "PENDING". */
  lemma PlacedOrderAsSeenInHistory(key: string, items: seq<CartItem>, m: PaymentMethod, a: Address, now: int)
    requires forall i :: 0 <= i < |items| ==> IntMin <= items[i].quantity <= IntMax
    requires LongMin <= now <= LongMax
    ensures var o := ParseOrderOf(History, key, PlacedOrderValue(items, CartTotals(items), EnumName(m), a, now));
      o.Some? && o.value.status == "PENDING" && !o.value.adminConfirmed
      && o.value.total == CartTotals(items).total && o.value.subtotal == Subtotal(items)
      && o.value.paymentDetails.paymentMethod == EnumName(m)
      && |o.value.items| == |items|
      && (forall i :: 0 <= i < |items| ==>
            o.value.items[i].productId == items[i].productId && o.value.items[i].quantity == items[i].quantity
            && o.value.items[i].price == items[i].price)
  {
    PlacedOrderReadBack(History, key, items, CartTotals(items), EnumName(m), a, now);
  }
}
