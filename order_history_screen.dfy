/** What the order-history screen derives from the view model's state: the
  * optional date range it filters by, the label of that range, which of
  * error / "no orders yet" / "no orders in range" / the list it shows, and
  * the figures on each order card. */
module OrderHistoryScreen {
  import opened Common
  import opened Model
  import opened Snapshot
  import opened OrderHistory

  const MillisPerDay: int := 86_400_000

  /** The calendar day (days since the epoch) of an instant in a zone at a
    * fixed offset from UTC, in milliseconds. */
  function Day(timestamp: int, zoneOffset: int): (d: int)
    ensures d * MillisPerDay <= timestamp + zoneOffset < d * MillisPerDay + MillisPerDay
  {
    (timestamp + zoneOffset) / MillisPerDay
  }

  /** On or after the start day and on or before the end day; a missing
    * bound does not constrain. */
  predicate InRange(o: Order, start: Option<int>, end: Option<int>, zoneOffset: int)
  {
    var d := Day(o.timestamp, zoneOffset);
    (start.None? || start.value <= d) && (end.None? || d <= end.value)
  }

  function FilterByDate(orders: seq<Order>, start: Option<int>, end: Option<int>, zoneOffset: int): (r: seq<Order>)
  {
    if start.None? && end.None? then orders
    else Filter(orders, o => InRange(o, start, end, zoneOffset))
  }

  /** With no bound the list is unchanged; otherwise it keeps, in order,
    * exactly the orders whose day lies in the range, bounds included. */
  lemma FilterByDateCorrect(orders: seq<Order>, start: Option<int>, end: Option<int>, zoneOffset: int)
    ensures start.None? && end.None? ==> FilterByDate(orders, start, end, zoneOffset) == orders
    ensures IsSubsequence(FilterByDate(orders, start, end, zoneOffset), orders)
    ensures forall o :: o in FilterByDate(orders, start, end, zoneOffset) <==>
      o in orders && InRange(o, start, end, zoneOffset)
  {
    var r := FilterByDate(orders, start, end, zoneOffset);
    if start.None? && end.None? {
      SubsequenceReflexive(orders);
    } else {
      forall o | o in r
        ensures o in orders && InRange(o, start, end, zoneOffset)
      {
        var i :| 0 <= i < |r| && r[i] == o;
      }
      forall o | o in orders && InRange(o, start, end, zoneOffset)
        ensures o in r
      {
        var i :| 0 <= i < |orders| && orders[i] == o;
      }
    }
  }

  /** The label of the active range, given how a day is written. */
  function DateRangeText(start: Option<int>, end: Option<int>, format: int -> string): (r: string)
    ensures start.Some? && end.Some? ==> r == format(start.value) + " - " + format(end.value)
    ensures start.Some? && end.None? ==> r == "From " + format(start.value)
    ensures start.None? && end.Some? ==> r == "Until " + format(end.value)
    ensures start.None? && end.None? ==> r == "All Orders"
  {
    if start.Some? && end.Some? then format(start.value) + " - " + format(end.value)
    else if start.Some? then "From " + format(start.value)
    else if end.Some? then "Until " + format(end.value)
    else "All Orders"
  }

  datatype Content = ErrorState(message: string) | EmptyOrders | NoFilteredOrders | OrdersList(orders: seq<Order>)

  /** What the body shows: an error first; then, for an empty result,
    * "no orders yet" when the user has none and "none in range" when the
    * filter removed them all; otherwise the sorted, filtered list. */
  function ScreenContent(ui: HistoryUi, s: SortOrder, start: Option<int>, end: Option<int>, zoneOffset: int): (c: Content)
    ensures ui.errorMessage.Some? <==> c.ErrorState?
    ensures c.EmptyOrders? <==> ui.errorMessage.None? && ui.orders == []
    ensures c.NoFilteredOrders? ==> ui.orders != [] && FilterByDate(ui.orders, start, end, zoneOffset) == []
    ensures c.OrdersList? ==> c.orders == SortOrders(s, FilterByDate(ui.orders, start, end, zoneOffset)) && c.orders != []
  {
    var filtered := FilterByDate(ui.orders, start, end, zoneOffset);
    var sorted := SortOrders(s, filtered);
    SortOrdersCorrect(s, filtered);
    if ui.errorMessage.Some? then ErrorState(ui.errorMessage.value)
    else if sorted == [] then (if ui.orders == [] then EmptyOrders else NoFilteredOrders)
    else OrdersList(sorted)
  }

  /** A filter with no bound never hides every order of a user who has some. */
  lemma NoBoundNeverEmpties(ui: HistoryUi, s: SortOrder, zoneOffset: int)
    requires ui.errorMessage.None? && ui.orders != []
    ensures ScreenContent(ui, s, None, None, zoneOffset).OrdersList?
  {
    SortOrdersCorrect(s, ui.orders);
  }

  // ----- the order card ----------------------------------------------------------------

  /** The card's "× n": the sum of the lines' quantities in Kotlin `Int`. */
  function TotalItems(items: seq<OrderItem>): (n: int)
    ensures IntMin <= n <= IntMax
  {
    Int32(SumInts(seq(|items|, i requires 0 <= i < |items| => items[i].quantity)))
  }

  /** With lines of at most `hi` each and no overflow, the count is the
    * plain sum and lies between 0 and `hi` times the number of lines. */
  lemma TotalItemsBounds(items: seq<OrderItem>, hi: int)
    requires forall i :: 0 <= i < |items| ==> 0 <= items[i].quantity <= hi
    requires hi * |items| <= IntMax
    ensures 0 <= TotalItems(items) <= hi * |items|
    ensures TotalItems(items) == SumInts(seq(|items|, i requires 0 <= i < |items| => items[i].quantity))
  {
    var qs := seq(|items|, i requires 0 <= i < |items| => items[i].quantity);
    SumIntsBounds(qs, 0, hi);
  }

  /** The first line's caption: its name, then "and k more item(s)" when
    * there are k more lines. */
  function FirstLineCaption(items: seq<OrderItem>): (r: Option<string>)
    ensures items == [] <==> r.None?
    ensures |items| == 1 ==> r == Some(items[0].name + " ")
    ensures |items| > 1 ==> r == Some(items[0].name + " " + "and " + IntToString(|items| - 1) + " more item(s)")
  {
    if items == [] then None
    else if |items| == 1 then Some(items[0].name + " ")
    else Some(items[0].name + " " + "and " + IntToString(|items| - 1) + " more item(s)")
  }

  /** "Mark as Received" is offered for pending orders only. The list is
    * built with the default `onMarkAsReceived = {}`, so the button does
    * nothing when pressed; `OrderHistoryViewModel.MarkOrderAsReceived` is
    * never reached from this screen. */
  predicate ShowsMarkAsReceived(o: Order)
  {
    o.status == "PENDING"
  }

  /** `formatTimestampToPattern`: time 0 (no timestamp stored) reads "N/A". */
  function FormatTimestamp(timestamp: int, format: int -> string): (r: string)
    ensures timestamp == 0 ==> r == "N/A"
    ensures timestamp != 0 ==> r == format(timestamp)
  {
    if timestamp == 0 then "N/A" else format(timestamp)
  }

  /** An order stored without a timestamp reads back at time 0 and so shows "N/A". */
  lemma UntimedOrderShowsNA(key: string, v: Value, format: int -> string)
    requires OrderRecords.ParseOrderOf(OrderRecords.History, key, v).Some? && !Has(v, "timestamp")
    ensures FormatTimestamp(OrderRecords.ParseOrderOf(OrderRecords.History, key, v).value.timestamp, format) == "N/A"
  {
  }

  // ----- the remembered date range -------------------------------------------------------

  class DateRangeState {
    var startDate: Option<int>
    var endDate: Option<int>

    constructor()
      ensures startDate.None? && endDate.None?
    {
      startDate := None;
      endDate := None;
    }

    /** "OK" in the picker: each bound is the picked day, or none. */
    method Apply(pickedStart: Option<int>, pickedEnd: Option<int>, zoneOffset: int)
      modifies this
      ensures startDate == (if pickedStart.Some? then Some(Day(pickedStart.value, zoneOffset)) else None)
      ensures endDate == (if pickedEnd.Some? then Some(Day(pickedEnd.value, zoneOffset)) else None)
    {
      startDate := if pickedStart.Some? then Some(Day(pickedStart.value, zoneOffset)) else None;
      endDate := if pickedEnd.Some? then Some(Day(pickedEnd.value, zoneOffset)) else None;
    }

    /** The clear button and "reset filters": afterwards every order shows. */
    method Clear()
      modifies this
      ensures startDate.None? && endDate.None?
      ensures forall orders: seq<Order>, z: int :: FilterByDate(orders, startDate, endDate, z) == orders
    {
      startDate := None;
      endDate := None;
    }
  }
}
