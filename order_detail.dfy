/** The order detail screen's view model: one order of the signed-in user,
  * read with the detail screen's defaults. */
module OrderDetail {
  import opened Common
  import opened Model
  import opened Snapshot
  import opened OrderRecords

  datatype DetailUi = DetailUi(order: Option<Order>, isLoading: bool, errorMessage: Option<string>)

  const InitialDetailUi := DetailUi(None, false, None)

  class OrderDetailViewModel {
    /** Whether a user is signed in. */
    const signedIn: bool
    /** `orders/{user}`. */
    const orders: Value
    var ui: DetailUi

    constructor(signedIn: bool, orders: Value)
      ensures this.signedIn == signedIn && this.orders == orders && ui == InitialDetailUi
    {
      this.signedIn := signedIn;
      this.orders := orders;
      ui := InitialDetailUi;
    }

    /** `loadOrderDetails(orderId)`: each outcome replaces the whole state —
      * not signed in, no such order, an order that does not parse, a failed
      * read, or the order alone with no error. */
    method LoadOrderDetails(orderId: string, readSucceeds: bool, failure: string)
      modifies this
      ensures !signedIn ==> ui == DetailUi(None, false, Some("User not logged in"))
      ensures signedIn && !readSucceeds ==> ui == DetailUi(None, false, Some("Error: " + failure))
      ensures signedIn && readSucceeds && !Has(orders, orderId) ==> ui == DetailUi(None, false, Some("Order not found"))
      ensures signedIn && readSucceeds && Has(orders, orderId) ==>
        var parsed := ParseOrderOf(Detail, orderId, Child(orders, orderId).value);
        ui == (if parsed.Some? then DetailUi(parsed, false, None)
               else DetailUi(None, false, Some("Failed to parse order data")))
      ensures ui.order.Some? ==> ui.errorMessage.None? && ui.order.value.orderId == orderId
    {
      ui := DetailUi(None, true, None);
      if !signedIn {
        ui := DetailUi(None, false, Some("User not logged in"));
        return;
      }
      if !readSucceeds {
        ui := DetailUi(None, false, Some("Error: " + failure));
        return;
      }
      var node := Child(orders, orderId);
      if node.None? {
        ui := DetailUi(None, false, Some("Order not found"));
        return;
      }
      var order := ParseOrder(Detail, orderId, node.value);
      if order.Some? {
        ui := DetailUi(order, false, None);
      } else {
        ui := DetailUi(None, false, Some("Failed to parse order data"));
      }
    }
  }

  /** The detail screen shows a placed order's whole address, the method's
    * stored name, and lines without a size. */
  lemma DetailShowsPlacedOrder(key: string, items: seq<CartItem>, t: Cart.Totals, paymentMethod: string, a: Address, now: int)
    requires forall i :: 0 <= i < |items| ==> IntMin <= items[i].quantity <= IntMax
    requires LongMin <= now <= LongMax
    ensures var o := ParseOrderOf(Detail, key, PlacedOrderValue(items, t, paymentMethod, a, now));
      o.Some? && o.value.paymentDetails == PaymentDetails(0, "", paymentMethod, "")
      && o.value.shippingAddress ==
         ShippingAddress(a.fullName, a.phoneNumber, a.address, a.city, a.state, a.zipCode, a.isDefault)
      && (forall i :: 0 <= i < |o.value.items| ==> o.value.items[i].selectedSize == "")
  {
    PlacedOrderReadBack(Detail, key, items, t, paymentMethod, a, now);
  }
}
