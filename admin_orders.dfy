/** The admin's order screens read the whole `orders` node: users first, then
  * each user's orders. This module holds what the pending-orders screen and
  * the revenue screen share (collecting the orders of one status, read with
  * the admin's `parseOrder`), and the pending-orders view model, which lets
  * the admin confirm an order. */
module AdminOrders {
  import opened Common
  import opened Model
  import opened Snapshot
  import opened OrderRecords

  /** Every order node under `orders`, user after user, in snapshot order. */
  function AllOrderEntries(users: seq<Entry>): (r: seq<Entry>)
  {
    if users == [] then [] else Children(users[0].value) + AllOrderEntries(users[1..])
  }

  /** An order node is listed exactly when some user holds it. */
  lemma {:induction false} AllOrderEntriesMembers(users: seq<Entry>, e: Entry)
    ensures e in AllOrderEntries(users) <==> exists k :: 0 <= k < |users| && e in Children(users[k].value)
  {
    if users != [] {
      AllOrderEntriesMembers(users[1..], e);
      if e in AllOrderEntries(users[1..]) {
        var k :| 0 <= k < |users[1..]| && e in Children(users[1..][k].value);
        assert users[k + 1] == users[1..][k];
      }
      if exists k :: 0 <= k < |users| && e in Children(users[k].value) {
        var k :| 0 <= k < |users| && e in Children(users[k].value);
        if k > 0 {
          assert users[1..][k - 1] == users[k];
        }
      }
    }
  }

  lemma {:induction false} AllOrderEntriesAppend(users: seq<Entry>, u: Entry)
    ensures AllOrderEntries(users + [u]) == AllOrderEntries(users) + Children(u.value)
  {
    if users == [] {
      assert users + [u] == [u];
      assert [u][1..] == [];
    } else {
      assert (users + [u])[1..] == users[1..] + [u];
      AllOrderEntriesAppend(users[1..], u);
      calc {
        AllOrderEntries(users + [u]);
        Children(users[0].value) + AllOrderEntries(users[1..] + [u]);
        Children(users[0].value) + (AllOrderEntries(users[1..]) + Children(u.value));
        (Children(users[0].value) + AllOrderEntries(users[1..])) + Children(u.value);
      }
    }
  }

  /** What one order node adds to the list of orders of `status`: its parse
    * (nothing when that fails) if its status is `status`, nothing if its
    * status is missing or another; the status is read outside the parse's
    * `try`, so a status that is not a string fails the whole load. */
  function Picked(e: Entry, status: string): (r: Option<seq<Order>>)
    ensures r.None? <==> GetString(e.value, "status").Thrown?
    ensures r.Some? && GetString(e.value, "status") == Found(status) ==> r.value == Kept(Admin, e)
    ensures r.Some? && GetString(e.value, "status") != Found(status) ==> r.value == []
  {
    match GetString(e.value, "status")
    case Thrown => None
    case Absent => Some([])
    case Found(s) => Some(if s == status then Kept(Admin, e) else [])
  }

  /** The orders of `status` among the nodes, in order; none at all when a
    * status read throws. */
  function CollectByStatus(es: seq<Entry>, status: string): (r: Option<seq<Order>>)
  {
    if es == [] then Some([])
    else
      var first :- Picked(es[0], status);
      var rest :- CollectByStatus(es[1..], status);
      Some(first + rest)
  }

  /** The load fails exactly when some node's status is not a string. */
  lemma {:induction false} CollectFails(es: seq<Entry>, status: string)
    ensures CollectByStatus(es, status).None? <==> exists e :: e in es && GetString(e.value, "status").Thrown?
  {
    if es != [] {
      CollectFails(es[1..], status);
      if exists e :: e in es && GetString(e.value, "status").Thrown? {
        var e :| e in es && GetString(e.value, "status").Thrown?;
        if e != es[0] {
          assert e in es[1..];
        }
      }
    }
  }

  /** When the load succeeds it holds exactly the orders parsed from nodes
    * whose status is `status`, and so each of them carries that status. */
  lemma {:induction false} CollectExactly(es: seq<Entry>, status: string)
    requires CollectByStatus(es, status).Some?
    ensures forall o :: o in CollectByStatus(es, status).value <==>
      exists e :: e in es && GetString(e.value, "status") == Found(status) && ParseOrderOf(Admin, e.key, e.value) == Some(o)
    ensures forall o :: o in CollectByStatus(es, status).value ==> o.status == status
  {
    if es != [] {
      var first := Picked(es[0], status).value;
      var rest := CollectByStatus(es[1..], status).value;
      CollectExactly(es[1..], status);
      assert CollectByStatus(es, status).value == first + rest;
      forall o
        ensures o in CollectByStatus(es, status).value <==>
          exists e :: e in es && GetString(e.value, "status") == Found(status) && ParseOrderOf(Admin, e.key, e.value) == Some(o)
      {
        if o in rest {
          var e :| e in es[1..] && GetString(e.value, "status") == Found(status) && ParseOrderOf(Admin, e.key, e.value) == Some(o);
          assert e in es;
        }
        if exists e :: e in es && GetString(e.value, "status") == Found(status) && ParseOrderOf(Admin, e.key, e.value) == Some(o) {
          var e :| e in es && GetString(e.value, "status") == Found(status) && ParseOrderOf(Admin, e.key, e.value) == Some(o);
          if e != es[0] {
            assert e in es[1..];
          }
        }
      }
    }
  }

  /** Reading one more node, as the screens' loops do. */
  lemma {:induction false} CollectAppend(es: seq<Entry>, e: Entry, status: string)
    requires CollectByStatus(es, status).Some? && Picked(e, status).Some?
    ensures CollectByStatus(es + [e], status) ==
      Some(CollectByStatus(es, status).value + Picked(e, status).value)
  {
    if es == [] {
      assert es + [e] == [e];
      assert [e][1..] == [];
      assert CollectByStatus([e], status) == Some(Picked(e, status).value + []);
      assert Picked(e, status).value + [] == [] + Picked(e, status).value;
    } else {
      assert (es + [e])[0] == es[0];
      assert (es + [e])[1..] == es[1..] + [e];
      CollectAppend(es[1..], e, status);
      var first := Picked(es[0], status).value;
      var rest := CollectByStatus(es[1..], status).value;
      assert first + (rest + Picked(e, status).value) == (first + rest) + Picked(e, status).value;
    }
  }

  /** A status that is not a string anywhere under any user fails the load. */
  lemma CollectFailsAt(users: seq<Entry>, i: nat, j: nat, status: string)
    requires i < |users| && j < |Children(users[i].value)|
    requires Picked(Children(users[i].value)[j], status).None?
    ensures CollectByStatus(AllOrderEntries(users), status).None?
  {
    var e := Children(users[i].value)[j];
    AllOrderEntriesMembers(users, e);
    CollectFails(AllOrderEntries(users), status);
  }

  /** One step of the outer loop: the next user's orders follow the others. */
  lemma NextUser(users: seq<Entry>, i: nat, status: string, found: seq<Order>)
    requires i < |users|
    requires CollectByStatus(AllOrderEntries(users[..i]) + Children(users[i].value), status) == Some(found)
    ensures CollectByStatus(AllOrderEntries(users[..i + 1]), status) == Some(found)
  {
    AllOrderEntriesAppend(users[..i], users[i]);
    assert users[..i + 1] == users[..i] + [users[i]];
  }

  /** The inner loop over one user's order nodes, continuing the orders
    * `found` so far in `done`: it stops at the first status read that throws. */
  method CollectUserOrders(ghost done: seq<Entry>, nodes: seq<Entry>, status: string, found: seq<Order>)
    returns (r: Option<seq<Order>>)
    requires CollectByStatus(done, status) == Some(found)
    ensures r.Some? ==> CollectByStatus(done + nodes, status) == r
    ensures r.None? ==> exists j :: 0 <= j < |nodes| && Picked(nodes[j], status).None?
  {
    var acc := found;
    var j := 0;
    assert done + nodes[..0] == done;
    while j < |nodes|
      invariant 0 <= j <= |nodes|
      invariant CollectByStatus(done + nodes[..j], status) == Some(acc)
    {
      var picked := Picked(nodes[j], status);
      if picked.None? {
        return None;
      }
      CollectAppend(done + nodes[..j], nodes[j], status);
      assert done + nodes[..j + 1] == (done + nodes[..j]) + [nodes[j]];
      acc := acc + picked.value;
      j := j + 1;
    }
    assert nodes[..j] == nodes;
    r := Some(acc);
  }

  /** The two nested loops of `loadPendingOrders` and of the revenue
    * screen's `loadOrders`, over users and then their orders. */
  method CollectOrders(orders: Value, status: string) returns (r: Option<seq<Order>>)
    ensures r == CollectByStatus(AllOrderEntries(Children(orders)), status)
  {
    var users := Children(orders);
    var found: seq<Order> := [];
    var i := 0;
    while i < |users|
      invariant 0 <= i <= |users|
      invariant CollectByStatus(AllOrderEntries(users[..i]), status) == Some(found)
    {
      var next := CollectUserOrders(AllOrderEntries(users[..i]), Children(users[i].value), status, found);
      if next.None? {
        var j :| 0 <= j < |Children(users[i].value)| && Picked(Children(users[i].value)[j], status).None?;
        CollectFailsAt(users, i, j, status);
        return None;
      }
      found := next.value;
      NextUser(users, i, status, found);
      i := i + 1;
    }
    assert users[..i] == users;
    r := Some(found);
  }

  // ----- pending orders ---------------------------------------------------------------

  /** What `loadPendingOrders` finds under `orders`. */
  function PendingOrders(orders: Value): (r: Option<seq<Order>>)
  {
    CollectByStatus(AllOrderEntries(Children(orders)), "PENDING")
  }

  /** The pending list is the "PENDING" orders of every user, each parsed. */
  lemma PendingOrdersExactly(orders: Value)
    requires PendingOrders(orders).Some?
    ensures forall o :: o in PendingOrders(orders).value ==> o.status == "PENDING"
    ensures forall o :: o in PendingOrders(orders).value <==>
      exists e :: e in AllOrderEntries(Children(orders)) && GetString(e.value, "status") == Found("PENDING")
        && ParseOrderOf(Admin, e.key, e.value) == Some(o)
  {
    CollectExactly(AllOrderEntries(Children(orders)), "PENDING");
  }

  /** `confirmOrder` looks for the first user holding the order id. */
  function FirstHolder(users: seq<Entry>, orderId: string): (i: nat)
    ensures i <= |users|
    ensures i < |users| ==> Has(users[i].value, orderId)
    ensures forall k :: 0 <= k < i ==> !Has(users[k].value, orderId)
  {
    if users == [] then 0
    else if Has(users[0].value, orderId) then 0
    else 1 + FirstHolder(users[1..], orderId)
  }

  /** `orders/{user}/{orderId}/adminConfirmed = true`. */
  function Confirmed(orders: Value, user: string, orderId: string): (r: Value)
  {
    var u := Node(orders, user);
    SetChild(orders, user, SetChild(u, orderId, SetChild(Node(u, orderId), "adminConfirmed", Bool(true))))
  }

  /** After the write the order reads as confirmed; every other field of the
    * order (its status included) and every other user is as it was. */
  lemma ConfirmedOrder(orders: Value, user: string, orderId: string, otherField: string, otherUser: string)
    ensures GetBool(Node(Node(Confirmed(orders, user, orderId), user), orderId), "adminConfirmed") == Found(true)
    ensures otherField != "adminConfirmed" ==>
      Child(Node(Node(Confirmed(orders, user, orderId), user), orderId), otherField)
      == Child(Node(Node(orders, user), orderId), otherField)
    ensures otherUser != user ==> Child(Confirmed(orders, user, orderId), otherUser) == Child(orders, otherUser)
  {
    var u := Node(orders, user);
    var o := Node(u, orderId);
    var o' := SetChild(o, "adminConfirmed", Bool(true));
    var u' := SetChild(u, orderId, o');
    LookupReplace(Children(orders), user, u', otherUser);
    LookupReplace(Children(u), orderId, o', orderId);
    LookupReplace(Children(o), "adminConfirmed", Bool(true), otherField);
  }

  /** Once the admin has confirmed an order, the user's history reads it as
    * confirmed, which is what "Mark as Received" requires; its status is
    * unchanged, so a pending order stays on the pending list. */
  lemma ConfirmedOrderInHistory(orders: Value, user: string, orderId: string)
    ensures var v := Node(Node(Confirmed(orders, user, orderId), user), orderId);
      var o := ParseOrderOf(History, orderId, v);
      (o.Some? ==> o.value.adminConfirmed)
      && GetString(v, "status") == GetString(Node(Node(orders, user), orderId), "status")
  {
    ConfirmedOrder(orders, user, orderId, "status", user);
  }

  datatype ManageUi = ManageUi(isLoading: bool, pendingOrders: seq<Order>, errorMessage: Option<string>)

  const InitialManageUi := ManageUi(false, [], None)

  class ManageOrderViewModel {
    var ui: ManageUi
    /** The `orders` node. */
    var orders: Value

    /** Every order shown as pending has status "PENDING". */
    predicate Valid()
      reads this
    {
      forall o :: o in ui.pendingOrders ==> o.status == "PENDING"
    }

    /** `init` loads the pending orders. */
    constructor(orders: Value, readSucceeds: bool, failure: string)
      ensures this.orders == orders && Valid()
      ensures readSucceeds && PendingOrders(orders).Some? ==>
        ui == ManageUi(false, PendingOrders(orders).value, None)
      ensures !(readSucceeds && PendingOrders(orders).Some?) ==>
        ui == ManageUi(false, [], Some("Failed to load pending orders: " + failure))
    {
      ui := InitialManageUi;
      this.orders := orders;
      new;
      LoadPendingOrders(readSucceeds, failure);
    }

    /** `loadPendingOrders`: on success the list is replaced and an earlier
      * error is kept; on failure the list is kept. */
    method LoadPendingOrders(readSucceeds: bool, failure: string)
      modifies this
      ensures orders == old(orders)
      ensures readSucceeds && PendingOrders(orders).Some? ==>
        ui == old(ui).(isLoading := false, pendingOrders := PendingOrders(orders).value)
      ensures !(readSucceeds && PendingOrders(orders).Some?) ==>
        ui == old(ui).(isLoading := false, errorMessage := Some("Failed to load pending orders: " + failure))
      ensures old(Valid()) ==> Valid()
    {
      ui := ui.(isLoading := true);
      if !readSucceeds {
        ui := ui.(isLoading := false, errorMessage := Some("Failed to load pending orders: " + failure));
        return;
      }
      var pending := CollectOrders(orders, "PENDING");
      if pending.None? {
        ui := ui.(isLoading := false, errorMessage := Some("Failed to load pending orders: " + failure));
        return;
      }
      PendingOrdersExactly(orders);
      ui := ui.(isLoading := false, pendingOrders := pending.value);
    }

    /** `confirmOrder`: the order's first holder gets `adminConfirmed = true`
      * and the list is reloaded; no holder, a failed read or a failed write
      * only set the error. */
    method ConfirmOrder(orderId: string, readSucceeds: bool, written: bool,
                        reloadSucceeds: bool, failure: string)
      modifies this
      ensures var users := Children(old(orders));
        var holder := FirstHolder(users, orderId);
        if !readSucceeds || (holder < |users| && !written) then
          orders == old(orders) && ui == old(ui).(errorMessage := Some("Failed to confirm order: " + failure))
        else if holder == |users| then
          orders == old(orders) && ui == old(ui).(errorMessage := Some("Failed to confirm order: User not found"))
        else
          orders == Confirmed(old(orders), users[holder].key, orderId)
          && (reloadSucceeds && PendingOrders(orders).Some? ==>
                ui == old(ui).(isLoading := false, pendingOrders := PendingOrders(orders).value))
          && (!(reloadSucceeds && PendingOrders(orders).Some?) ==>
                ui == old(ui).(isLoading := false, errorMessage := Some("Failed to load pending orders: " + failure)))
      ensures old(Valid()) ==> Valid()
    {
      if !readSucceeds {
        ui := ui.(errorMessage := Some("Failed to confirm order: " + failure));
        return;
      }
      var users := Children(orders);
      var i := 0;
      while i < |users|
        invariant 0 <= i <= |users|
        invariant forall k :: 0 <= k < i ==> !Has(users[k].value, orderId)
      {
        if Has(users[i].value, orderId) {
          break;
        }
        i := i + 1;
      }
      assert i == FirstHolder(users, orderId);
      if i == |users| {
        ui := ui.(errorMessage := Some("Failed to confirm order: User not found"));
        return;
      }
      if !written {
        ui := ui.(errorMessage := Some("Failed to confirm order: " + failure));
        return;
      }
      orders := Confirmed(orders, users[i].key, orderId);
      LoadPendingOrders(reloadSucceeds, failure);
    }

    method ClearErrorMessage()
      modifies this
      ensures ui == old(ui).(errorMessage := None) && orders == old(orders)
      ensures old(Valid()) ==> Valid()
    {
      ui := ui.(errorMessage := None);
    }
  }
}
