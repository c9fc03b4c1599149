/** The admin's revenue screen: every user's paid orders, optionally limited
  * to a date range, and the sum of their totals. */
module Revenue {
  import opened Common
  import opened Model
  import opened Snapshot
  import opened AdminOrders

  /** One day in milliseconds, the step `Calendar.add(DAY_OF_MONTH, 1)`
    * takes away from daylight-saving changes. */
  const MillisPerDay: int := 86_400_000

  /** `filterOrdersByDateRange`: from the start instant up to, and not
    * including, one day after the end instant. */
  predicate InWindow(o: Order, start: int, end: int)
  {
    start <= o.timestamp < end + MillisPerDay
  }

  /** The list shown: filtered only when both dates are set. */
  function Shown(all: seq<Order>, start: Option<int>, end: Option<int>): (r: seq<Order>)
  {
    if start.Some? && end.Some? then Filter(all, o => InWindow(o, start.value, end.value)) else all
  }

  /** With both dates set the list keeps, in order, exactly the orders from
    * the start instant through the whole day after the end instant began;
    * with either date missing nothing is filtered. */
  lemma ShownExactly(all: seq<Order>, start: Option<int>, end: Option<int>)
    ensures IsSubsequence(Shown(all, start, end), all)
    ensures !(start.Some? && end.Some?) ==> Shown(all, start, end) == all
    ensures start.Some? && end.Some? ==>
      forall o :: o in Shown(all, start, end) <==> o in all && InWindow(o, start.value, end.value)
  {
    if !(start.Some? && end.Some?) {
      SubsequenceReflexive(all);
    } else {
      var r := Shown(all, start, end);
      forall o | o in r
        ensures o in all && InWindow(o, start.value, end.value)
      {
        var i :| 0 <= i < |r| && r[i] == o;
      }
      forall o | o in all && InWindow(o, start.value, end.value)
        ensures o in r
      {
        var i :| 0 <= i < |all| && all[i] == o;
      }
    }
  }

  /** An order placed during the end day itself (any time in the 24 hours
    * from the end instant) is counted; one a day later is not. */
  lemma EndDayIncluded(o: Order, start: int, end: int)
    requires start <= end
    ensures end <= o.timestamp < end + MillisPerDay ==> InWindow(o, start, end)
    ensures o.timestamp >= end + MillisPerDay ==> !InWindow(o, start, end)
  {
  }

  /** `sumOf { it.total }`. */
  function TotalRevenue(orders: seq<Order>): (r: real)
  {
    if orders == [] then 0.0 else orders[0].total + TotalRevenue(orders[1..])
  }

  /** The revenue of the orders a filter keeps and of those it drops add up
    * to the revenue of all of them. */
  lemma {:induction false} TotalRevenueSplit(orders: seq<Order>, keep: Order -> bool)
    ensures TotalRevenue(Filter(orders, keep)) + TotalRevenue(Filter(orders, o => !keep(o))) == TotalRevenue(orders)
  {
    if orders != [] {
      var x := orders[0];
      var rest := orders[1..];
      TotalRevenueSplit(rest, keep);
      if keep(x) {
        assert ([x] + Filter(rest, keep))[1..] == Filter(rest, keep);
      } else {
        assert ([x] + Filter(rest, o => !keep(o)))[1..] == Filter(rest, o => !keep(o));
      }
    }
  }

  /** With no negative total the revenue is not negative, and it is at
    * least the total of any one order. */
  lemma {:induction false} TotalRevenueBounds(orders: seq<Order>)
    requires forall i :: 0 <= i < |orders| ==> orders[i].total >= 0.0
    ensures TotalRevenue(orders) >= 0.0
    ensures forall i :: 0 <= i < |orders| ==> orders[i].total <= TotalRevenue(orders)
  {
    if orders != [] {
      TotalRevenueBounds(orders[1..]);
      forall i | 1 <= i < |orders|
        ensures orders[i].total <= TotalRevenue(orders)
      {
        assert orders[1..][i - 1] == orders[i];
      }
    }
  }

  /** What `loadOrders` finds under `orders`. */
  function PaidOrders(orders: Value): (r: Option<seq<Order>>)
  {
    CollectByStatus(AllOrderEntries(Children(orders)), "PAID")
  }

  lemma PaidOrdersExactly(orders: Value)
    requires PaidOrders(orders).Some?
    ensures forall o :: o in PaidOrders(orders).value ==> o.status == "PAID"
    ensures forall o :: o in PaidOrders(orders).value <==>
      exists e :: e in AllOrderEntries(Children(orders)) && GetString(e.value, "status") == Found("PAID")
        && OrderRecords.ParseOrderOf(OrderRecords.Admin, e.key, e.value) == Some(o)
  {
    CollectExactly(AllOrderEntries(Children(orders)), "PAID");
  }

  datatype RevenueUi = RevenueUi(
    isLoading: bool,
    orders: seq<Order>,
    totalRevenue: real,
    startDate: Option<int>,
    endDate: Option<int>,
    errorMessage: Option<string>)

  const InitialRevenueUi := RevenueUi(false, [], 0.0, None, None, None)

  class RevenueViewModel {
    var ui: RevenueUi
    /** The `orders` node. */
    const orders: Value

    /** The revenue shown is that of the orders shown, and they are all paid. */
    predicate Valid()
      reads this
    {
      ui.totalRevenue == TotalRevenue(ui.orders) && forall o :: o in ui.orders ==> o.status == "PAID"
    }

    /** `init` loads the orders. */
    constructor(orders: Value, readSucceeds: bool, failure: string)
      ensures this.orders == orders && Valid()
      ensures readSucceeds && PaidOrders(orders).Some? ==>
        ui == InitialRevenueUi.(orders := PaidOrders(orders).value,
                                totalRevenue := TotalRevenue(PaidOrders(orders).value))
      ensures !(readSucceeds && PaidOrders(orders).Some?) ==>
        ui == InitialRevenueUi.(errorMessage := Some("Failed to load orders: " + failure))
    {
      ui := InitialRevenueUi;
      this.orders := orders;
      new;
      LoadOrders(readSucceeds, failure);
    }

    /** `loadOrders`: the paid orders, filtered by the dates in force, and
      * their revenue; a failure keeps the list and sets the error. */
    method LoadOrders(readSucceeds: bool, failure: string)
      modifies this
      ensures readSucceeds && PaidOrders(orders).Some? ==>
        var shown := Shown(PaidOrders(orders).value, old(ui).startDate, old(ui).endDate);
        ui == old(ui).(isLoading := false, orders := shown, totalRevenue := TotalRevenue(shown))
      ensures !(readSucceeds && PaidOrders(orders).Some?) ==>
        ui == old(ui).(isLoading := false, errorMessage := Some("Failed to load orders: " + failure))
      ensures old(Valid()) ==> Valid()
    {
      ui := ui.(isLoading := true);
      if !readSucceeds {
        ui := ui.(isLoading := false, errorMessage := Some("Failed to load orders: " + failure));
        return;
      }
      var all := CollectOrders(orders, "PAID");
      if all.None? {
        ui := ui.(isLoading := false, errorMessage := Some("Failed to load orders: " + failure));
        return;
      }
      var shown := Shown(all.value, ui.startDate, ui.endDate);
      PaidOrdersExactly(orders);
      ShownExactly(all.value, ui.startDate, ui.endDate);
      ui := ui.(isLoading := false, orders := shown, totalRevenue := TotalRevenue(shown));
    }

    /** `setDateRange`: both dates are set, then the orders are reloaded. */
    method SetDateRange(start: int, end: int, readSucceeds: bool, failure: string)
      modifies this
      ensures readSucceeds && PaidOrders(orders).Some? ==>
        var shown := Filter(PaidOrders(orders).value, o => InWindow(o, start, end));
        ui == old(ui).(startDate := Some(start), endDate := Some(end), isLoading := false,
                       orders := shown, totalRevenue := TotalRevenue(shown))
      ensures !(readSucceeds && PaidOrders(orders).Some?) ==>
        ui == old(ui).(startDate := Some(start), endDate := Some(end), isLoading := false,
                       errorMessage := Some("Failed to load orders: " + failure))
      ensures old(Valid()) ==> Valid()
    {
      ui := ui.(startDate := Some(start), endDate := Some(end));
      LoadOrders(readSucceeds, failure);
    }

    /** `clearDateFilter`: both dates are cleared, then every paid order is
      * reloaded. */
    method ClearDateFilter(readSucceeds: bool, failure: string)
      modifies this
      ensures readSucceeds && PaidOrders(orders).Some? ==>
        ui == old(ui).(startDate := None, endDate := None, isLoading := false,
                       orders := PaidOrders(orders).value, totalRevenue := TotalRevenue(PaidOrders(orders).value))
      ensures !(readSucceeds && PaidOrders(orders).Some?) ==>
        ui == old(ui).(startDate := None, endDate := None, isLoading := false,
                       errorMessage := Some("Failed to load orders: " + failure))
      ensures old(Valid()) ==> Valid()
    {
      ui := ui.(startDate := None, endDate := None);
      LoadOrders(readSucceeds, failure);
    }

    method ClearErrorMessage()
      modifies this
      ensures ui == old(ui).(errorMessage := None)
      ensures old(Valid()) ==> Valid()
    {
      ui := ui.(errorMessage := None);
    }
  }
}
