/** The user's order history: the list of their orders in either time
  * order, and "mark as received", which — once an admin has confirmed the
  * order — takes each line's quantity off the product's stock, counts one
  * more purchase of the product, and marks the order paid. */
module OrderHistory {
  import opened Common
  import opened Model
  import opened Sorting
  import opened Snapshot
  import opened OrderRecords

  datatype SortOrder = NewestFirst | OldestFirst

  /** `toggleSortOrder`: the other of the two orders. */
  function Toggled(s: SortOrder): (r: SortOrder)
    ensures r != s
  {
    match s
    case NewestFirst => OldestFirst
    case OldestFirst => NewestFirst
  }

  function OrderTime(o: Order): (r: Key)
  {
    IntKey(o.timestamp)
  }

  /** `sortOrders`: by timestamp, newest or oldest first (stable). */
  function SortOrders(s: SortOrder, orders: seq<Order>): (r: seq<Order>)
  {
    SortBy(OrderTime, s == NewestFirst, orders)
  }

  /** The sorted list holds the same orders, with timestamps falling for
    * newest first and rising for oldest first; orders with the same time
    * keep their relative order. */
  lemma SortOrdersCorrect(s: SortOrder, orders: seq<Order>)
    ensures |SortOrders(s, orders)| == |orders|
    ensures multiset(SortOrders(s, orders)) == multiset(orders)
    ensures s == NewestFirst ==> forall i, j :: 0 <= i < j < |orders| ==>
      SortOrders(s, orders)[i].timestamp >= SortOrders(s, orders)[j].timestamp
    ensures s == OldestFirst ==> forall i, j :: 0 <= i < j < |orders| ==>
      SortOrders(s, orders)[i].timestamp <= SortOrders(s, orders)[j].timestamp
    ensures forall t :: WithKey(OrderTime, IntKey(t), SortOrders(s, orders)) == WithKey(OrderTime, IntKey(t), orders)
  {
    var r := SortOrders(s, orders);
    SortByCorrect(OrderTime, s == NewestFirst, orders);
    assert |r| == |orders| by {
      assert |multiset(r)| == |multiset(orders)|;
    }
    forall i, j | 0 <= i < j < |r|
      ensures s == NewestFirst ==> r[i].timestamp >= r[j].timestamp
      ensures s == OldestFirst ==> r[i].timestamp <= r[j].timestamp
    {
      NotBeforeInt(OrderTime, s == NewestFirst, r[i], r[j], r[i].timestamp, r[j].timestamp);
    }
  }

  // ----- marking an order received -------------------------------------------------

  /** The per-product counters "mark as received" reads and writes:
    * `products/{id}/stock` and `products/{id}/buyCount` (absent when missing). */
  datatype Counters = Counters(stocks: map<string, Value>, buyCounts: map<string, Value>)

  /** How far the loop over the lines got: the counters written so far, and
    * whether a read or a write threw (which ends the loop and keeps earlier
    * writes). */
  datatype Progress = Progress(counters: Counters, failed: bool)

  /** Which awaited write of "mark as received" throws, if any: the stock or
    * the purchase-count write of the line at index `line` of the order's
    * items, or the final status write. */
  datatype WriteFault = NoWriteFault | StockWriteFails(line: nat) | BuyCountWriteFails(line: nat) | StatusWriteFails

  /** `getValue(Int::class.java)` on a counter. */
  function ReadCount(m: map<string, Value>, id: string): (r: Read<int>)
    ensures id !in m ==> r == Absent
  {
    if id in m then AsInteger(m[id], IntMin, IntMax) else Absent
  }

  /** The stock after taking `quantity` off, in Kotlin `Int` arithmetic:
    * never below zero. */
  function ReducedStock(stock: int, quantity: int): (r: int)
    ensures 0 <= r <= IntMax
    ensures IntMin <= stock - quantity <= IntMax ==> r == (if stock - quantity > 0 then stock - quantity else 0)
  {
    var d := Int32(stock - quantity);
    if d > 0 then d else 0
  }

  /** One order line: a line with no product id is skipped; a missing
    * quantity counts as 1 and a missing counter as 0; the stock is reduced
    * and clamped at 0, then the purchase count goes up by one. A read that
    * throws, or a write that throws (`stockFails`, `countFails`), ends the
    * step with the writes made before it. */
  function ReceiveLine(item: Value, c: Counters, stockFails: bool, countFails: bool): (r: Progress)
    ensures GetString(item, "productId").Absent? ==> r == Progress(c, false)
    ensures r.failed <==>
      GetString(item, "productId").Thrown?
      || (GetString(item, "productId").Found?
          && (var id := GetString(item, "productId").value;
              GetInt(item, "quantity").Thrown? || ReadCount(c.stocks, id).Thrown? || stockFails
              || ReadCount(c.buyCounts, id).Thrown? || countFails))
    ensures GetString(item, "productId").Found? ==>
      var id := GetString(item, "productId").value;
      var quantity := OrElse(GetInt(item, "quantity"), 1);
      var stock := OrElse(ReadCount(c.stocks, id), 0);
      r.counters.stocks
        == if quantity.Some? && stock.Some? && !stockFails
           then c.stocks[id := Num(ReducedStock(stock.value, quantity.value))]
           else c.stocks
    ensures !r.failed && GetString(item, "productId").Found? ==>
      var id := GetString(item, "productId").value;
      var count := OrElse(ReadCount(c.buyCounts, id), 0).value;
      r.counters.buyCounts == c.buyCounts[id := Num(Int32(count + 1))]
    ensures r.failed || !GetString(item, "productId").Found? ==> r.counters.buyCounts == c.buyCounts
  {
    match GetString(item, "productId")
    case Thrown => Progress(c, true)
    case Absent => Progress(c, false)
    case Found(id) =>
      match OrElse(GetInt(item, "quantity"), 1)
      case None => Progress(c, true)
      case Some(quantity) =>
        match OrElse(ReadCount(c.stocks, id), 0)
        case None => Progress(c, true)
        case Some(stock) =>
          if stockFails then Progress(c, true)
          else
            var written := c.(stocks := c.stocks[id := Num(ReducedStock(stock, quantity))]);
            match OrElse(ReadCount(c.buyCounts, id), 0)
            case None => Progress(written, true)
            case Some(count) =>
              if countFails then Progress(written, true)
              else Progress(written.(buyCounts := c.buyCounts[id := Num(Int32(count + 1))]), false)
  }

  /** The line at index `line` under the write fault `f`. */
  function ReceiveLineAt(item: Value, c: Counters, f: WriteFault, line: nat): (r: Progress)
  {
    ReceiveLine(item, c, f == StockWriteFails(line), f == BuyCountWriteFails(line))
  }

  /** The loop over the order's lines (the first at index `base`), stopping
    * at the first read or write that throws. */
  function ReceiveLines(es: seq<Entry>, c: Counters, f: WriteFault, base: nat): (r: Progress)
  {
    if es == [] then Progress(c, false)
    else
      var p := ReceiveLineAt(es[0].value, c, f, base);
      if p.failed then p else ReceiveLines(es[1..], p.counters, f, base + 1)
  }

  lemma {:induction false} ReceiveLinesAppend(es: seq<Entry>, e: Entry, c: Counters, f: WriteFault, base: nat)
    requires !ReceiveLines(es, c, f, base).failed
    ensures ReceiveLines(es + [e], c, f, base)
      == ReceiveLineAt(e.value, ReceiveLines(es, c, f, base).counters, f, base + |es|)
  {
    if es == [] {
      assert es + [e] == [e];
    } else {
      assert (es + [e])[0] == es[0];
      assert (es + [e])[1..] == es[1..] + [e];
      ReceiveLinesAppend(es[1..], e, ReceiveLineAt(es[0].value, c, f, base).counters, f, base + 1);
    }
  }

  lemma ReceiveLinesFailedPrefix(es: seq<Entry>, i: nat, c: Counters, f: WriteFault)
    requires i < |es| && !ReceiveLines(es[..i], c, f, 0).failed
    requires ReceiveLineAt(es[i].value, ReceiveLines(es[..i], c, f, 0).counters, f, i).failed
    ensures ReceiveLines(es, c, f, 0) == ReceiveLineAt(es[i].value, ReceiveLines(es[..i], c, f, 0).counters, f, i)
  {
    ReceiveLinesAppend(es[..i], es[i], c, f, 0);
    assert es[..i + 1] == es[..i] + [es[i]];
    ReceiveLinesSuffix(es, i + 1, c, f, 0);
  }

  lemma {:induction false} ReceiveLinesSuffix(es: seq<Entry>, i: nat, c: Counters, f: WriteFault, base: nat)
    requires i <= |es| && ReceiveLines(es[..i], c, f, base).failed
    ensures ReceiveLines(es, c, f, base) == ReceiveLines(es[..i], c, f, base)
  {
    if i > 0 && es != [] {
      assert es[..i][0] == es[0];
      assert es[..i][1..] == es[1..][..i - 1];
      var p := ReceiveLineAt(es[0].value, c, f, base);
      if !p.failed {
        ReceiveLinesSuffix(es[1..], i - 1, p.counters, f, base + 1);
      }
    }
  }

  /** A stock is never written below zero: every counter is either as it
    * was or a non-negative number. */
  predicate StocksNonNegativeOrKept(before: map<string, Value>, after: map<string, Value>)
  {
    before.Keys <= after.Keys
    && forall k :: k in after ==> (k in before && after[k] == before[k]) || (after[k].Num? && after[k].n >= 0)
  }

  lemma {:induction false} ReceivedStocksNonNegative(es: seq<Entry>, c: Counters, f: WriteFault, base: nat)
    ensures StocksNonNegativeOrKept(c.stocks, ReceiveLines(es, c, f, base).counters.stocks)
  {
    if es != [] {
      var p := ReceiveLineAt(es[0].value, c, f, base);
      if !p.failed {
        ReceivedStocksNonNegative(es[1..], p.counters, f, base + 1);
        var after := ReceiveLines(es[1..], p.counters, f, base + 1).counters.stocks;
        forall k | k in after
          ensures (k in c.stocks && after[k] == c.stocks[k]) || (after[k].Num? && after[k].n >= 0)
        {
        }
      } else {
        assert p.counters.stocks == c.stocks || GetString(es[0].value, "productId").Found?;
      }
    }
  }

  /** The lines of an order that name product `id`. */
  function LinesFor(es: seq<Entry>, id: string): (r: nat)
  {
    if es == [] then 0
    else (if GetString(es[0].value, "productId") == Found(id) then 1 else 0) + LinesFor(es[1..], id)
  }

  /** The counter of `id` is as it was (missing or the same value). */
  predicate SameAt(before: map<string, Value>, after: map<string, Value>, id: string)
  {
    (id in after <==> id in before) && (id in before ==> after[id] == before[id])
  }

  /** When no read or write throws, a product's purchase count rises by exactly the
    * number of lines naming it, whatever their quantities (below the
    * `Int` limit). */
  lemma {:induction false} BuyCountPerLine(es: seq<Entry>, c: Counters, f: WriteFault, base: nat, id: string, count: int)
    requires !ReceiveLines(es, c, f, base).failed
    requires OrElse(ReadCount(c.buyCounts, id), 0) == Some(count)
    requires 0 <= count && count + LinesFor(es, id) <= IntMax
    ensures LinesFor(es, id) > 0 ==>
      id in ReceiveLines(es, c, f, base).counters.buyCounts
      && ReceiveLines(es, c, f, base).counters.buyCounts[id] == Num(count + LinesFor(es, id))
    ensures LinesFor(es, id) == 0 ==> SameAt(c.buyCounts, ReceiveLines(es, c, f, base).counters.buyCounts, id)
  {
    if es != [] {
      var p := ReceiveLineAt(es[0].value, c, f, base);
      var here := GetString(es[0].value, "productId");
      if here == Found(id) {
        assert p.counters.buyCounts[id] == Num(count + 1);
        assert ReadCount(p.counters.buyCounts, id) == Found(count + 1);
        BuyCountPerLine(es[1..], p.counters, f, base + 1, id, count + 1);
        assert LinesFor(es, id) == 1 + LinesFor(es[1..], id);
      } else {
        if here.Found? {
          assert p.counters.buyCounts.Keys == c.buyCounts.Keys + {here.value};
        }
        assert SameAt(c.buyCounts, p.counters.buyCounts, id);
        BuyCountPerLine(es[1..], p.counters, f, base + 1, id, count);
      }
    }
  }

  // ----- the view model ---------------------------------------------------------------

  datatype HistoryUi = HistoryUi(orders: seq<Order>, errorMessage: Option<string>)

  /** What the order history reads and writes. */
  datatype Store = Store(
    orders: Value,          // orders/{user}
    counters: Counters)     // products/{id}/stock and buyCount

  const NotConfirmed := "Cannot mark as received: Order not yet confirmed by admin"

  class OrderHistoryViewModel {
    /** Whether a user is signed in: without one every operation returns early. */
    const signedIn: bool
    var ui: HistoryUi
    var sortOrder: SortOrder
    var store: Store

    constructor(signedIn: bool, store: Store, readSucceeds: bool, failure: string)
      ensures this.signedIn == signedIn && this.store == store && sortOrder == NewestFirst
      ensures signedIn && readSucceeds ==> ui == HistoryUi(ParsedOrders(History, Children(store.orders)), None)
      ensures signedIn && !readSucceeds ==> ui == HistoryUi([], Some("Failed to load orders: " + failure))
      ensures !signedIn ==> ui == HistoryUi([], None)
    {
      this.signedIn := signedIn;
      this.store := store;
      sortOrder := NewestFirst;
      ui := HistoryUi([], None);
      new;
      LoadOrders(readSucceeds, failure);
    }

    method ToggleSortOrder()
      modifies this
      ensures sortOrder == Toggled(old(sortOrder)) && ui == old(ui) && store == old(store)
    {
      sortOrder := Toggled(sortOrder);
    }

    /** The list as displayed under the current sort order. */
    function Sorted(orders: seq<Order>): (r: seq<Order>)
      reads this
    {
      SortOrders(sortOrder, orders)
    }

    /** `loadOrders`: every order that parses, in stored order; a failed
      * read replaces the whole state with the error. */
    method LoadOrders(readSucceeds: bool, failure: string)
      modifies this
      ensures !signedIn ==> ui == old(ui)
      ensures signedIn && readSucceeds ==> ui == HistoryUi(ParsedOrders(History, Children(store.orders)), None)
      ensures signedIn && !readSucceeds ==> ui == HistoryUi([], Some("Failed to load orders: " + failure))
      ensures store == old(store) && sortOrder == old(sortOrder)
    {
      if !signedIn {
        return;
      }
      if !readSucceeds {
        ui := HistoryUi([], Some("Failed to load orders: " + failure));
        return;
      }
      var es := Children(store.orders);
      var orders: seq<Order> := [];
      var i := 0;
      while i < |es|
        invariant 0 <= i <= |es|
        invariant orders == ParsedOrders(History, es[..i])
        invariant store == old(store) && sortOrder == old(sortOrder)
      {
        var o := ParseOrder(History, es[i].key, es[i].value);
        ParsedOrdersStep(History, es, i);
        if o.Some? {
          orders := orders + [o.value];
        }
        i := i + 1;
      }
      assert es[..i] == es;
      assert orders == ParsedOrders(History, es);
      ui := HistoryUi(orders, None);
    }

    /** `markOrderAsReceived(orderId)`. An order not confirmed by an admin
      * (a missing flag counts as not confirmed) is refused and nothing is
      * written. Otherwise each line updates its product's counters, the
      * order's status becomes "PAID", and the list is reloaded. A read or an
      * awaited write that throws (`fault`) stops there with "Failed to
      * update order: ", keeping the list shown and the writes already made;
      * the reload, started only when nothing threw, may fail in turn and
      * then empties the list with "Failed to load orders: ". */
    method MarkOrderAsReceived(orderId: string, readSucceeds: bool, fault: WriteFault, reloadSucceeds: bool, failure: string)
      modifies this
      ensures sortOrder == old(sortOrder)
      ensures !signedIn ==> ui == old(ui) && store == old(store)
      ensures signedIn && !readSucceeds ==>
        store == old(store) && ui == HistoryUi(old(ui).orders, Some("Failed to update order: " + failure))
      ensures signedIn && readSucceeds && GetBool(Node(old(store).orders, orderId), "adminConfirmed").Thrown? ==>
        store == old(store) && ui == HistoryUi(old(ui).orders, Some("Failed to update order: " + failure))
      ensures signedIn && readSucceeds && OrElse(GetBool(Node(old(store).orders, orderId), "adminConfirmed"), false) == Some(false) ==>
        store == old(store) && ui == HistoryUi(old(ui).orders, Some(NotConfirmed))
      ensures signedIn && readSucceeds && GetBool(Node(old(store).orders, orderId), "adminConfirmed") == Found(true) ==>
        var order := Node(old(store).orders, orderId);
        var p := ReceiveLines(ChildEntries(order, "items"), old(store).counters, fault, 0);
        store.counters == p.counters
        && (p.failed || fault == StatusWriteFails ==>
              store.orders == old(store).orders
              && ui == HistoryUi(old(ui).orders, Some("Failed to update order: " + failure)))
        && (!p.failed && fault != StatusWriteFails ==>
              store.orders == SetChild(old(store).orders, orderId, SetChild(order, "status", Str("PAID")))
              && (reloadSucceeds ==> ui == HistoryUi(ParsedOrders(History, Children(store.orders)), None))
              && (!reloadSucceeds ==> ui == HistoryUi([], Some("Failed to load orders: " + failure))))
    {
      if !signedIn {
        return;
      }
      if !readSucceeds {
        ui := HistoryUi(ui.orders, Some("Failed to update order: " + failure));
        return;
      }
      var order := Node(store.orders, orderId);
      var confirmed := OrElse(GetBool(order, "adminConfirmed"), false);
      if confirmed.None? {
        ui := HistoryUi(ui.orders, Some("Failed to update order: " + failure));
        return;
      }
      if !confirmed.value {
        ui := HistoryUi(ui.orders, Some(NotConfirmed));
        return;
      }
      var es := ChildEntries(order, "items");
      var i := 0;
      while i < |es|
        invariant 0 <= i <= |es|
        invariant !ReceiveLines(es[..i], old(store).counters, fault, 0).failed
        invariant store == old(store).(counters := ReceiveLines(es[..i], old(store).counters, fault, 0).counters)
        invariant ui == old(ui) && sortOrder == old(sortOrder)
      {
        var p := ReceiveLineAt(es[i].value, store.counters, fault, i);
        ReceiveLinesAppend(es[..i], es[i], old(store).counters, fault, 0);
        assert es[..i + 1] == es[..i] + [es[i]];
        store := store.(counters := p.counters);
        if p.failed {
          ReceiveLinesFailedPrefix(es, i, old(store).counters, fault);
          ui := HistoryUi(ui.orders, Some("Failed to update order: " + failure));
          return;
        }
        i := i + 1;
      }
      assert es[..i] == es;
      if fault == StatusWriteFails {
        ui := HistoryUi(ui.orders, Some("Failed to update order: " + failure));
        return;
      }
      store := store.(orders := SetChild(store.orders, orderId, SetChild(order, "status", Str("PAID"))));
      LoadOrders(reloadSucceeds, failure);
    }
  }

  /** After a confirmed order is marked received, reading it back shows the
    * status "PAID". */
  lemma ReceivedOrderIsPaid(orders: Value, orderId: string)
    ensures var after := SetChild(orders, orderId, SetChild(Node(orders, orderId), "status", Str("PAID")));
      GetString(Node(after, orderId), "status") == Found("PAID")
  {
    var order := SetChild(Node(orders, orderId), "status", Str("PAID"));
    LookupReplace(Children(orders), orderId, order, orderId);
    LookupReplace(Children(Node(orders, orderId)), "status", Str("PAID"), "status");
  }
}
