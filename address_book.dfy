/** The signed-in user's address book under `users/{uid}/addresses`: how the
  * list screen reads and orders it, and the writes that move the "default"
  * flag or remove an address. */
module AddressBook {
  import opened Common
  import opened Model
  import opened Snapshot
  import opened Sorting

  /** A text field of an address node: its value, or "" when missing. */
  function TextOf(v: Value, key: string): (r: string)
  {
    if GetString(v, key).Found? then GetString(v, key).value else ""
  }

  /** One address node read under its key: missing text is "", a missing
    * flag is false, and a field of another type throws. */
  function ParseAddressNode(id: string, v: Value): (r: Option<Address>)
    ensures r.None? <==>
      GetString(v, "fullName").Thrown? || GetString(v, "phoneNumber").Thrown? || GetString(v, "address").Thrown?
      || GetString(v, "city").Thrown? || GetString(v, "state").Thrown? || GetString(v, "zipCode").Thrown?
      || GetBool(v, "isDefault").Thrown?
    ensures r.Some? ==>
      r.value == Address(id, TextOf(v, "fullName"), TextOf(v, "phoneNumber"), TextOf(v, "address"),
                         TextOf(v, "city"), TextOf(v, "state"), TextOf(v, "zipCode"),
                         GetBool(v, "isDefault") == Found(true))
  {
    var fullName :- OrElse(GetString(v, "fullName"), "");
    var phoneNumber :- OrElse(GetString(v, "phoneNumber"), "");
    var address :- OrElse(GetString(v, "address"), "");
    var city :- OrElse(GetString(v, "city"), "");
    var state :- OrElse(GetString(v, "state"), "");
    var zipCode :- OrElse(GetString(v, "zipCode"), "");
    var isDefault :- OrElse(GetBool(v, "isDefault"), false);
    Some(Address(id, fullName, phoneNumber, address, city, state, zipCode, isDefault))
  }

  /** The whole list, in snapshot order; one node that throws fails it all. */
  function ParseAddressList(es: seq<Entry>): (r: Option<seq<Address>>)
    ensures r.Some? <==> forall i :: 0 <= i < |es| ==> ParseAddressNode(es[i].key, es[i].value).Some?
    ensures r.Some? ==> |r.value| == |es|
    ensures r.Some? ==> forall i :: 0 <= i < |es| ==> ParseAddressNode(es[i].key, es[i].value) == Some(r.value[i])
  {
    if es == [] then Some([])
    else
      var first :- ParseAddressNode(es[0].key, es[0].value);
      var rest :- ParseAddressList(es[1..]);
      assert forall i :: 1 <= i < |es| ==> es[i] == es[1..][i - 1];
      Some([first] + rest)
  }

  /** `compareByDescending { isDefault }.thenBy { fullName }`. */
  function AddressKey(a: Address): (r: Key)
  {
    PairKey(IntKey(if a.isDefault then 0 else 1), TextKey(a.fullName))
  }

  function SortAddresses(list: seq<Address>): (r: seq<Address>)
  {
    SortBy(AddressKey, false, list)
  }

  /** The sorted list is a permutation of the parsed one in which every
    * default address comes before every other, names ascend within each
    * group, and addresses with equal flag and name keep their order. */
  lemma SortAddressesCorrect(list: seq<Address>)
    ensures multiset(SortAddresses(list)) == multiset(list) && |SortAddresses(list)| == |list|
    ensures var r := SortAddresses(list);
      forall i, j :: 0 <= i < j < |r| && r[j].isDefault ==> r[i].isDefault
    ensures var r := SortAddresses(list);
      forall i, j :: 0 <= i < j < |r| && r[i].isDefault == r[j].isDefault ==> !TextLess(r[j].fullName, r[i].fullName)
    ensures forall k :: WithKey(AddressKey, k, SortAddresses(list)) == WithKey(AddressKey, k, list)
  {
    var r := SortAddresses(list);
    SortByCorrect(AddressKey, false, list);
    SortByPermutes(AddressKey, false, list);
    forall i, j | 0 <= i < j < |r|
      ensures r[j].isDefault ==> r[i].isDefault
      ensures r[i].isDefault == r[j].isDefault ==> !TextLess(r[j].fullName, r[i].fullName)
    {
      assert !Before(AddressKey, false, r[j], r[i]);
      assert !KeyLess(AddressKey(r[j]), AddressKey(r[i]));
      var mi := IntKey(if r[i].isDefault then 0 else 1);
      var mj := IntKey(if r[j].isDefault then 0 else 1);
      assert !KeyLess(mj, mi) && (mj == mi ==> !KeyLess(TextKey(r[j].fullName), TextKey(r[i].fullName)));
    }
  }

  // ----- the writes ----------------------------------------------------------------

  /** `addresses/{id}/isDefault = b`. */
  function SetFlag(v: Value, id: string, b: bool): (r: Value)
  {
    SetChild(v, id, SetChild(Node(v, id), "isDefault", Bool(b)))
  }

  /** The address written reads `b`; its other fields and every other
    * address are as they were. */
  lemma SetFlagReads(v: Value, id: string, b: bool, k: string, f: string)
    ensures GetBool(Node(SetFlag(v, id, b), id), "isDefault") == Found(b)
    ensures f != "isDefault" ==> Child(Node(SetFlag(v, id, b), id), f) == Child(Node(v, id), f)
    ensures k != id ==> Child(SetFlag(v, id, b), k) == Child(v, k)
  {
    LookupReplace(Children(v), id, SetChild(Node(v, id), "isDefault", Bool(b)), k);
    LookupReplace(Children(Node(v, id)), "isDefault", Bool(b), f);
  }

  /** `isDefault = false` written to each id in turn. */
  function ClearFlags(v: Value, ids: seq<string>): (r: Value)
    decreases |ids|
  {
    if ids == [] then v else ClearFlags(SetFlag(v, ids[0], false), ids[1..])
  }

  /** After the writes every listed address reads as not default, the other
    * addresses are untouched, and no other field changes. */
  lemma {:induction false} ClearFlagsReads(v: Value, ids: seq<string>, k: string, f: string)
    ensures k in ids ==> GetBool(Node(ClearFlags(v, ids), k), "isDefault") == Found(false)
    ensures k !in ids ==> Child(ClearFlags(v, ids), k) == Child(v, k)
    ensures f != "isDefault" ==> Child(Node(ClearFlags(v, ids), k), f) == Child(Node(v, k), f)
    decreases |ids|
  {
    if ids != [] {
      var v' := SetFlag(v, ids[0], false);
      ClearFlagsReads(v', ids[1..], k, f);
      SetFlagReads(v, ids[0], false, k, f);
      if k != ids[0] {
        assert Node(v', k) == Node(v, k);
      }
    }
  }

  /** One more write after the others. */
  lemma {:induction false} ClearFlagsAppend(v: Value, ids: seq<string>, id: string)
    ensures ClearFlags(v, ids + [id]) == SetFlag(ClearFlags(v, ids), id, false)
    decreases |ids|
  {
    if ids == [] {
      assert [id][1..] == [];
    } else {
      assert (ids + [id])[1..] == ids[1..] + [id];
      ClearFlagsAppend(SetFlag(v, ids[0], false), ids[1..], id);
    }
  }

  /** A path segment `child` refuses, throwing at once: it holds `.`, `#`,
    * `$`, `[` or `]`. */
  predicate InvalidKey(s: string)
  {
    '.' in s || '#' in s || '$' in s || '[' in s || ']' in s
  }

  /** The position of the first id `child` refuses; `|ids|` when there is none. */
  function FirstInvalid(ids: seq<string>): (r: nat)
    ensures r <= |ids|
    ensures forall j :: 0 <= j < r ==> !InvalidKey(ids[j])
    ensures r < |ids| ==> InvalidKey(ids[r])
  {
    if ids == [] then 0
    else if InvalidKey(ids[0]) then 0
    else 1 + FirstInvalid(ids[1..])
  }

  /** `setDefaultAddress(target)`: every listed address set non-default,
    * then the target set default. */
  function DefaultSet(v: Value, ids: seq<string>, target: string): (r: Value)
  {
    SetFlag(ClearFlags(v, ids), target, true)
  }

  /** Afterwards the target is the one default among the listed addresses
    * (written even when it is not listed), unlisted ones are untouched, and
    * no field but the flag changes. */
  lemma DefaultSetReads(v: Value, ids: seq<string>, target: string, k: string, f: string)
    ensures GetBool(Node(DefaultSet(v, ids, target), target), "isDefault") == Found(true)
    ensures k in ids && k != target ==> GetBool(Node(DefaultSet(v, ids, target), k), "isDefault") == Found(false)
    ensures k !in ids && k != target ==> Child(DefaultSet(v, ids, target), k) == Child(v, k)
    ensures f != "isDefault" ==> Child(Node(DefaultSet(v, ids, target), k), f) == Child(Node(v, k), f)
  {
    var c := ClearFlags(v, ids);
    ClearFlagsReads(v, ids, k, f);
    SetFlagReads(c, target, true, k, f);
    if k != target {
      assert Node(DefaultSet(v, ids, target), k) == Node(c, k);
    }
  }

  /** The ids of a list of addresses, in order. */
  function Ids(list: seq<Address>): (r: seq<string>)
    ensures |r| == |list| && forall i :: 0 <= i < |list| ==> r[i] == list[i].id
  {
    if list == [] then [] else [list[0].id] + Ids(list[1..])
  }

  // ----- the list screen ---------------------------------------------------------------

  datatype ListUi = ListUi(addresses: seq<Address>, isLoading: bool, errorMessage: Option<string>)

  const InitialListUi := ListUi([], true, None)

  class AddressListViewModel {
    var ui: ListUi
    /** `users/{uid}/addresses`. */
    var store: Value

    /** `init` loads the list. */
    constructor(store: Value, cancelled: bool, failure: string)
      ensures this.store == store
      ensures cancelled ==> ui == ListUi([], false, Some(failure))
      ensures !cancelled && ParseAddressList(Children(store)).Some? ==>
        ui == ListUi(SortAddresses(ParseAddressList(Children(store)).value), false, None)
      ensures !cancelled && ParseAddressList(Children(store)).None? ==>
        ui == ListUi([], false, Some("Failed to load addresses: " + failure))
    {
      ui := InitialListUi;
      this.store := store;
      new;
      LoadAddresses(cancelled, failure);
    }

    /** The listener's `onDataChange`: the nodes read in order, then sorted;
      * a node that throws keeps the old list and sets the error. */
    method OnDataChange(failure: string)
      modifies this
      ensures store == old(store)
      ensures ParseAddressList(Children(store)).Some? ==>
        ui == old(ui).(addresses := SortAddresses(ParseAddressList(Children(store)).value), isLoading := false)
      ensures ParseAddressList(Children(store)).None? ==>
        ui == old(ui).(isLoading := false, errorMessage := Some("Failed to load addresses: " + failure))
    {
      var es := Children(store);
      var list: seq<Address> := [];
      var i := 0;
      while i < |es|
        invariant 0 <= i <= |es| && |list| == i
        invariant forall j :: 0 <= j < i ==> ParseAddressNode(es[j].key, es[j].value) == Some(list[j])
      {
        var a := ParseAddressNode(es[i].key, es[i].value);
        if a.None? {
          ui := ui.(isLoading := false, errorMessage := Some("Failed to load addresses: " + failure));
          return;
        }
        list := list + [a.value];
        i := i + 1;
      }
      assert ParseAddressList(es).value == list;
      ui := ui.(addresses := SortAddresses(list), isLoading := false);
    }

    /** `loadAddresses`: the loading state, then the listener's first call
      * (or its cancellation, whose message is shown as is). */
    method LoadAddresses(cancelled: bool, failure: string)
      modifies this
      ensures store == old(store)
      ensures cancelled ==> ui == old(ui).(isLoading := false, errorMessage := Some(failure))
      ensures !cancelled && ParseAddressList(Children(store)).Some? ==>
        ui == old(ui).(addresses := SortAddresses(ParseAddressList(Children(store)).value),
                       isLoading := false, errorMessage := None)
      ensures !cancelled && ParseAddressList(Children(store)).None? ==>
        ui == old(ui).(isLoading := false, errorMessage := Some("Failed to load addresses: " + failure))
    {
      ui := ui.(isLoading := true, errorMessage := None);
      if cancelled {
        ui := ui.(isLoading := false, errorMessage := Some(failure));
        return;
      }
      OnDataChange(failure);
    }

    /** `deleteAddress`: only that node goes. The removal is not awaited, so
      * the only error the handler sees is `child` refusing the id. */
    method DeleteAddress(addressId: string, failure: string)
      modifies this
      ensures InvalidKey(addressId) ==>
        store == old(store) && ui == old(ui).(errorMessage := Some("Failed to delete address: " + failure))
      ensures !InvalidKey(addressId) ==> store == RemoveChild(old(store), addressId) && ui == old(ui)
    {
      if InvalidKey(addressId) {
        ui := ui.(errorMessage := Some("Failed to delete address: " + failure));
        return;
      }
      store := RemoveChild(store, addressId);
    }

    /** `setDefaultAddress`: a write of `false` for each listed address, in
      * list order, then `true` for the target. The writes are not awaited,
      * so the only error the handler sees is `child` refusing an id: the
      * writes issued before it stand, and nothing after it is written. */
    method SetDefaultAddress(addressId: string, failure: string)
      modifies this
      ensures var ids := Ids(old(ui).addresses);
        var k := FirstInvalid(ids);
        k < |ids| ==>
          store == ClearFlags(old(store), ids[..k])
          && ui == old(ui).(errorMessage := Some("Failed to update default address: " + failure))
      ensures var ids := Ids(old(ui).addresses);
        FirstInvalid(ids) == |ids| && InvalidKey(addressId) ==>
          store == ClearFlags(old(store), ids)
          && ui == old(ui).(errorMessage := Some("Failed to update default address: " + failure))
      ensures var ids := Ids(old(ui).addresses);
        FirstInvalid(ids) == |ids| && !InvalidKey(addressId) ==>
          store == DefaultSet(old(store), ids, addressId) && ui == old(ui)
    {
      var ids := Ids(ui.addresses);
      var k := ClearListed(ids);
      if k < |ids| {
        ui := ui.(errorMessage := Some("Failed to update default address: " + failure));
        return;
      }
      assert ids[..k] == ids;
      if InvalidKey(addressId) {
        ui := ui.(errorMessage := Some("Failed to update default address: " + failure));
        return;
      }
      store := SetFlag(store, addressId, true);
    }

    /** The loop of `setDefaultAddress`: `false` written for each id in turn,
      * up to the first one `child` refuses (`k`, or the length when none). */
    method ClearListed(ids: seq<string>) returns (k: nat)
      modifies this
      ensures k == FirstInvalid(ids)
      ensures store == ClearFlags(old(store), ids[..k]) && ui == old(ui)
    {
      var i := 0;
      assert ids[..0] == [];
      while i < |ids|
        invariant 0 <= i <= |ids| && ui == old(ui)
        invariant forall j :: 0 <= j < i ==> !InvalidKey(ids[j])
        invariant store == ClearFlags(old(store), ids[..i])
      {
        if InvalidKey(ids[i]) {
          return i;
        }
        ClearFlagsAppend(old(store), ids[..i], ids[i]);
        assert ids[..i + 1] == ids[..i] + [ids[i]];
        store := SetFlag(store, ids[i], false);
        i := i + 1;
      }
      return i;
    }
  }

  /** Removing an address leaves the key without a node and every other
    * address as it was. */
  lemma DeletedAddressGone(v: Value, addressId: string, other: string)
    ensures !Has(RemoveChild(v, addressId), addressId)
    ensures other != addressId ==> Child(RemoveChild(v, addressId), other) == Child(v, other)
  {
    LookupWithout(Children(v), addressId, other);
  }
}
