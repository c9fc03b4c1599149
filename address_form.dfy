/** The add-address and edit-address screens: a form of six text fields and
  * a "default" switch, its validation, and the writes that save it. */
module AddressForm {
  import opened Common
  import opened Model
  import opened Snapshot
  import opened AddressBook

  datatype Form = Form(
    fullName: string,
    phoneNumber: string,
    address: string,
    city: string,
    state: string,
    zipCode: string,
    isDefault: bool)

  const EmptyForm := Form("", "", "", "", "", "", false)

  /** `validateForm`: the six text fields are all non-blank; the switch is
    * not checked. */
  predicate Complete(f: Form)
  {
    !IsBlank(f.fullName) && !IsBlank(f.phoneNumber) && !IsBlank(f.address)
    && !IsBlank(f.city) && !IsBlank(f.state) && !IsBlank(f.zipCode)
  }

  /** A complete form has a visible character in every text field, and a
    * fresh or reset form is never complete. */
  lemma CompleteMeansFilled(f: Form)
    ensures Complete(f) ==> |f.fullName| > 0 && |f.phoneNumber| > 0 && |f.address| > 0
                            && |f.city| > 0 && |f.state| > 0 && |f.zipCode| > 0
    ensures !Complete(EmptyForm)
  {
    EmptyIsBlank();
    if Complete(f) {
      NonBlankHasVisibleChar(f.fullName);
      NonBlankHasVisibleChar(f.phoneNumber);
      NonBlankHasVisibleChar(f.address);
      NonBlankHasVisibleChar(f.city);
      NonBlankHasVisibleChar(f.state);
      NonBlankHasVisibleChar(f.zipCode);
    }
  }

  /** The map both screens write: the seven form fields. */
  function FormEntries(f: Form): (r: seq<Entry>)
  {
    [Entry("fullName", Str(f.fullName)), Entry("phoneNumber", Str(f.phoneNumber)),
     Entry("address", Str(f.address)), Entry("city", Str(f.city)), Entry("state", Str(f.state)),
     Entry("zipCode", Str(f.zipCode)), Entry("isDefault", Bool(f.isDefault))]
  }

  const FormKeys: seq<string> := ["fullName", "phoneNumber", "address", "city", "state", "zipCode", "isDefault"]

  /** The address a form describes, under `id`. */
  function AddressOf(id: string, f: Form): (r: Address)
  {
    Address(id, f.fullName, f.phoneNumber, f.address, f.city, f.state, f.zipCode, f.isDefault)
  }

  /** The form `loadAddress` fills from an address. */
  function FormOf(a: Address): (f: Form)
    ensures AddressOf(a.id, f) == a
  {
    Form(a.fullName, a.phoneNumber, a.address, a.city, a.state, a.zipCode, a.isDefault)
  }

  /** A node written with the form's entries, followed by entries under other
    * keys, reads back as the form. */
  lemma FormReadBack(node: Value, f: Form, extra: seq<Entry>, id: string)
    requires forall j :: 0 <= j < |extra| ==> extra[j].key !in FormKeys
    ensures ParseAddressNode(id, UpdateChildren(node, FormEntries(f) + extra)) == Some(AddressOf(id, f))
  {
    var es := FormEntries(f) + extra;
    var v := UpdateChildren(node, es);
    forall i | 0 <= i < 7
      ensures Child(v, es[i].key) == Some(es[i].value)
    {
      assert forall j :: i < j < |es| ==> es[j].key != es[i].key by {
        forall j | i < j < |es|
          ensures es[j].key != es[i].key
        {
          if j >= 7 {
            assert es[j] == extra[j - 7];
          }
        }
      }
      UpdateChildrenWritten(node, es, i);
    }
    assert Child(v, "fullName") == Some(Str(f.fullName)) by { assert es[0] == Entry("fullName", Str(f.fullName)); }
    assert Child(v, "phoneNumber") == Some(Str(f.phoneNumber)) by { assert es[1] == Entry("phoneNumber", Str(f.phoneNumber)); }
    assert Child(v, "address") == Some(Str(f.address)) by { assert es[2] == Entry("address", Str(f.address)); }
    assert Child(v, "city") == Some(Str(f.city)) by { assert es[3] == Entry("city", Str(f.city)); }
    assert Child(v, "state") == Some(Str(f.state)) by { assert es[4] == Entry("state", Str(f.state)); }
    assert Child(v, "zipCode") == Some(Str(f.zipCode)) by { assert es[5] == Entry("zipCode", Str(f.zipCode)); }
    assert Child(v, "isDefault") == Some(Bool(f.isDefault)) by { assert es[6] == Entry("isDefault", Bool(f.isDefault)); }
  }

  /** The keys of a node's children, in order. */
  function Keys(es: seq<Entry>): (r: seq<string>)
    ensures |r| == |es| && forall i :: 0 <= i < |es| ==> r[i] == es[i].key
  {
    if es == [] then [] else [es[0].key] + Keys(es[1..])
  }

  /** The keys other than `id`, in order. */
  function OtherKeys(es: seq<Entry>, id: string): (r: seq<string>)
    ensures id !in r
    ensures forall k :: k in r <==> k in Keys(es) && k != id
  {
    if es == [] then []
    else if es[0].key == id then OtherKeys(es[1..], id)
    else [es[0].key] + OtherKeys(es[1..], id)
  }

  /** Every key that has a child is among the keys. */
  lemma {:induction false} HasIsKey(es: seq<Entry>, k: string)
    requires Lookup(es, k).Some?
    ensures k in Keys(es)
  {
    if es[0].key != k {
      HasIsKey(es[1..], k);
    }
  }

  // ----- adding ------------------------------------------------------------------------

  /** The new node: the form's fields and a random "id". */
  function NewAddressRecord(f: Form, randomId: string): (r: Value)
  {
    UpdateChildren(Tree([]), FormEntries(f) + [Entry("id", Str(randomId))])
  }

  /** `saveAddress` on the add screen: when the new address is default
    * every existing one is set non-default first; then the new node is
    * written under its fresh key. */
  function Added(v: Value, f: Form, newKey: string, randomId: string): (r: Value)
  {
    var cleared := if f.isDefault then ClearFlags(v, Keys(Children(v))) else v;
    SetChild(cleared, newKey, NewAddressRecord(f, randomId))
  }

  /** The list reads the new address as the form, under its key; a new
    * default leaves every other address non-default, and a new address
    * that is not default touches no other. */
  lemma AddedAddress(v: Value, f: Form, newKey: string, randomId: string, k: string)
    ensures ParseAddressNode(newKey, Node(Added(v, f, newKey, randomId), newKey)) == Some(AddressOf(newKey, f))
    ensures f.isDefault && k != newKey && Has(v, k) ==>
      GetBool(Node(Added(v, f, newKey, randomId), k), "isDefault") == Found(false)
    ensures !f.isDefault && k != newKey ==> Child(Added(v, f, newKey, randomId), k) == Child(v, k)
  {
    var cleared := if f.isDefault then ClearFlags(v, Keys(Children(v))) else v;
    var record := NewAddressRecord(f, randomId);
    LookupReplace(Children(cleared), newKey, record, k);
    FormReadBack(Tree([]), f, [Entry("id", Str(randomId))], newKey);
    if f.isDefault && k != newKey && Has(v, k) {
      HasIsKey(Children(v), k);
      ClearFlagsReads(v, Keys(Children(v)), k, "");
      assert Node(Added(v, f, newKey, randomId), k) == Node(cleared, k);
    }
  }

  datatype AddUi = AddUi(form: Form, isLoading: bool, isSuccess: bool, errorMessage: Option<string>)

  const InitialAddUi := AddUi(EmptyForm, false, false, None)

  class AddAddressViewModel {
    var ui: AddUi
    /** `users/{uid}/addresses`. */
    var store: Value

    constructor(store: Value)
      ensures ui == InitialAddUi && this.store == store
    {
      ui := InitialAddUi;
      this.store := store;
    }

    method UpdateFullName(name: string)
      modifies this
      ensures ui == old(ui).(form := old(ui).form.(fullName := name)) && store == old(store)
    {
      ui := ui.(form := ui.form.(fullName := name));
    }

    method UpdatePhoneNumber(phone: string)
      modifies this
      ensures ui == old(ui).(form := old(ui).form.(phoneNumber := phone)) && store == old(store)
    {
      ui := ui.(form := ui.form.(phoneNumber := phone));
    }

    method UpdateAddress(address: string)
      modifies this
      ensures ui == old(ui).(form := old(ui).form.(address := address)) && store == old(store)
    {
      ui := ui.(form := ui.form.(address := address));
    }

    method UpdateCity(city: string)
      modifies this
      ensures ui == old(ui).(form := old(ui).form.(city := city)) && store == old(store)
    {
      ui := ui.(form := ui.form.(city := city));
    }

    method UpdateState(state: string)
      modifies this
      ensures ui == old(ui).(form := old(ui).form.(state := state)) && store == old(store)
    {
      ui := ui.(form := ui.form.(state := state));
    }

    method UpdateZipCode(zipCode: string)
      modifies this
      ensures ui == old(ui).(form := old(ui).form.(zipCode := zipCode)) && store == old(store)
    {
      ui := ui.(form := ui.form.(zipCode := zipCode));
    }

    method UpdateIsDefault(isDefault: bool)
      modifies this
      ensures ui == old(ui).(form := old(ui).form.(isDefault := isDefault)) && store == old(store)
    {
      ui := ui.(form := ui.form.(isDefault := isDefault));
    }

    /** `saveAddress`: `newKey` is the key `push()` hands out and `randomId`
      * the random id; only the read of the existing addresses, made for a
      * default address, can fail. */
    method SaveAddress(newKey: string, randomId: string, readSucceeds: bool, failure: string)
      modifies this
      ensures old(ui).form.isDefault && !readSucceeds ==>
        store == old(store)
        && ui == old(ui).(isLoading := false, isSuccess := false, errorMessage := Some("Failed to save address: " + failure))
      ensures !(old(ui).form.isDefault && !readSucceeds) ==>
        store == Added(old(store), old(ui).form, newKey, randomId)
        && ui == old(ui).(isLoading := false, isSuccess := true, errorMessage := None)
    {
      ui := ui.(isLoading := true, errorMessage := None);
      var record := NewAddressRecord(ui.form, randomId);
      if ui.form.isDefault {
        if !readSucceeds {
          ui := ui.(isLoading := false, isSuccess := false, errorMessage := Some("Failed to save address: " + failure));
          return;
        }
        var es := Children(store);
        ghost var keys := Keys(es);
        var i := 0;
        while i < |es|
          invariant 0 <= i <= |es| && ui == old(ui).(isLoading := true, errorMessage := None)
          invariant ClearFlags(store, keys[i..]) == ClearFlags(old(store), keys)
        {
          assert keys[i..][1..] == keys[i + 1..];
          store := SetFlag(store, es[i].key, false);
          i := i + 1;
        }
      }
      store := SetChild(store, newKey, record);
      ui := ui.(isLoading := false, isSuccess := true, errorMessage := None);
    }

    /** `resetForm`. */
    method ResetForm()
      modifies this
      ensures ui == InitialAddUi && store == old(store)
    {
      ui := InitialAddUi;
    }

    method ValidateForm() returns (ok: bool)
      ensures ok == Complete(ui.form)
    {
      ok := !IsBlank(ui.form.fullName) && !IsBlank(ui.form.phoneNumber) && !IsBlank(ui.form.address)
            && !IsBlank(ui.form.city) && !IsBlank(ui.form.state) && !IsBlank(ui.form.zipCode);
    }
  }

  // ----- editing -----------------------------------------------------------------------

  /** `saveAddress` on the edit screen: when the address is default every
    * other address is set non-default first; then the seven fields are
    * merged into the edited node, keeping its other children. */
  function Edited(v: Value, id: string, f: Form): (r: Value)
  {
    var cleared := if f.isDefault then ClearFlags(v, OtherKeys(Children(v), id)) else v;
    SetChild(cleared, id, UpdateChildren(Node(cleared, id), FormEntries(f)))
  }

  /** The edited node reads back as the form saved and keeps its random "id". */
  lemma EditedReadsBack(v: Value, id: string, f: Form)
    ensures ParseAddressNode(id, Node(Edited(v, id, f), id)) == Some(AddressOf(id, f))
    ensures Child(Node(Edited(v, id, f), id), "id") == Child(Node(v, id), "id")
  {
    var cleared := if f.isDefault then ClearFlags(v, OtherKeys(Children(v), id)) else v;
    var node := UpdateChildren(Node(cleared, id), FormEntries(f));
    LookupReplace(Children(cleared), id, node, id);
    FormReadBack(Node(cleared, id), f, [], id);
    assert FormEntries(f) + [] == FormEntries(f);
    UpdateChildrenOther(Node(cleared, id), FormEntries(f), "id");
    if f.isDefault {
      ClearFlagsReads(v, OtherKeys(Children(v), id), id, "id");
    }
  }

  /** A default edit leaves every other stored address non-default. */
  lemma EditedClearsOthers(v: Value, id: string, f: Form, k: string)
    requires f.isDefault && k != id && Has(v, k)
    ensures GetBool(Node(Edited(v, id, f), k), "isDefault") == Found(false)
  {
    var cleared := ClearFlags(v, OtherKeys(Children(v), id));
    var node := UpdateChildren(Node(cleared, id), FormEntries(f));
    LookupReplace(Children(cleared), id, node, k);
    HasIsKey(Children(v), k);
    ClearFlagsReads(v, OtherKeys(Children(v), id), k, "");
    assert Node(Edited(v, id, f), k) == Node(cleared, k);
  }

  /** A non-default edit touches no other address. */
  lemma EditedKeepsOthers(v: Value, id: string, f: Form, k: string)
    requires !f.isDefault && k != id
    ensures Child(Edited(v, id, f), k) == Child(v, k)
  {
    LookupReplace(Children(v), id, UpdateChildren(Node(v, id), FormEntries(f)), k);
  }

  /** Loading the edited address gives back the form saved, and its random
    * "id" survives the edit; a default leaves every other address
    * non-default; a non-default edit touches no other address. */
  lemma EditedAddress(v: Value, id: string, f: Form, k: string)
    ensures ParseAddressNode(id, Node(Edited(v, id, f), id)) == Some(AddressOf(id, f))
    ensures Child(Node(Edited(v, id, f), id), "id") == Child(Node(v, id), "id")
    ensures f.isDefault && k != id && Has(v, k) ==> GetBool(Node(Edited(v, id, f), k), "isDefault") == Found(false)
    ensures !f.isDefault && k != id ==> Child(Edited(v, id, f), k) == Child(v, k)
  {
    EditedReadsBack(v, id, f);
    if f.isDefault && k != id && Has(v, k) {
      EditedClearsOthers(v, id, f, k);
    }
    if !f.isDefault && k != id {
      EditedKeepsOthers(v, id, f, k);
    }
  }

  datatype EditUi = EditUi(addressId: string, form: Form, isLoading: bool, isSuccess: bool, errorMessage: Option<string>)

  const InitialEditUi := EditUi("", EmptyForm, false, false, None)

  class EditAddressViewModel {
    var ui: EditUi
    /** `users/{uid}/addresses`. */
    var store: Value

    constructor(store: Value)
      ensures ui == InitialEditUi && this.store == store
    {
      ui := InitialEditUi;
      this.store := store;
    }

    /** `loadAddress`: the form filled from the node, missing fields at their
      * defaults; "Address not found" when there is no node. */
    method LoadAddress(addressId: string, readSucceeds: bool, failure: string)
      modifies this
      ensures store == old(store)
      ensures var start := old(ui).(isLoading := false, addressId := addressId);
        var parsed := ParseAddressNode(addressId, Node(store, addressId));
        ui == (if !readSucceeds then start.(errorMessage := Some("Failed to load address: " + failure))
               else if !Has(store, addressId) then start.(errorMessage := Some("Address not found"))
               else if parsed.None? then start.(errorMessage := Some("Failed to load address: " + failure))
               else start.(form := FormOf(parsed.value), errorMessage := None))
    {
      ui := ui.(isLoading := true, errorMessage := None, addressId := addressId);
      if !readSucceeds {
        ui := ui.(isLoading := false, errorMessage := Some("Failed to load address: " + failure));
        return;
      }
      var node := Child(store, addressId);
      if node.None? {
        ui := ui.(isLoading := false, errorMessage := Some("Address not found"));
        return;
      }
      var parsed := ParseAddressNode(addressId, node.value);
      if parsed.None? {
        ui := ui.(isLoading := false, errorMessage := Some("Failed to load address: " + failure));
        return;
      }
      ui := ui.(form := FormOf(parsed.value), isLoading := false);
    }

    method UpdateFullName(name: string)
      modifies this
      ensures ui == old(ui).(form := old(ui).form.(fullName := name)) && store == old(store)
    {
      ui := ui.(form := ui.form.(fullName := name));
    }

    method UpdatePhoneNumber(phone: string)
      modifies this
      ensures ui == old(ui).(form := old(ui).form.(phoneNumber := phone)) && store == old(store)
    {
      ui := ui.(form := ui.form.(phoneNumber := phone));
    }

    method UpdateAddress(address: string)
      modifies this
      ensures ui == old(ui).(form := old(ui).form.(address := address)) && store == old(store)
    {
      ui := ui.(form := ui.form.(address := address));
    }

    method UpdateCity(city: string)
      modifies this
      ensures ui == old(ui).(form := old(ui).form.(city := city)) && store == old(store)
    {
      ui := ui.(form := ui.form.(city := city));
    }

    method UpdateState(state: string)
      modifies this
      ensures ui == old(ui).(form := old(ui).form.(state := state)) && store == old(store)
    {
      ui := ui.(form := ui.form.(state := state));
    }

    method UpdateZipCode(zipCode: string)
      modifies this
      ensures ui == old(ui).(form := old(ui).form.(zipCode := zipCode)) && store == old(store)
    {
      ui := ui.(form := ui.form.(zipCode := zipCode));
    }

    method UpdateIsDefault(isDefault: bool)
      modifies this
      ensures ui == old(ui).(form := old(ui).form.(isDefault := isDefault)) && store == old(store)
    {
      ui := ui.(form := ui.form.(isDefault := isDefault));
    }

    /** `saveAddress`: the read of the other addresses (for a default) and
      * the final merge can fail; flags already cleared stay cleared when the
      * merge fails. */
    method SaveAddress(readSucceeds: bool, writeSucceeds: bool, failure: string)
      modifies this
      ensures var id := old(ui).addressId;
        var f := old(ui).form;
        var fail := old(ui).(isLoading := false, isSuccess := false, errorMessage := Some("Failed to update address: " + failure));
        if f.isDefault && !readSucceeds then store == old(store) && ui == fail
        else if !writeSucceeds then
          store == (if f.isDefault then ClearFlags(old(store), OtherKeys(Children(old(store)), id)) else old(store))
          && ui == fail
        else store == Edited(old(store), id, f) && ui == old(ui).(isLoading := false, isSuccess := true, errorMessage := None)
    {
      ui := ui.(isLoading := true, errorMessage := None);
      var id := ui.addressId;
      var data := FormEntries(ui.form);
      if ui.form.isDefault {
        if !readSucceeds {
          ui := ui.(isLoading := false, isSuccess := false, errorMessage := Some("Failed to update address: " + failure));
          return;
        }
        var es := Children(store);
        var i := 0;
        while i < |es|
          invariant 0 <= i <= |es| && ui == old(ui).(isLoading := true, errorMessage := None)
          invariant ClearFlags(store, OtherKeys(es[i..], id)) == ClearFlags(old(store), OtherKeys(es, id))
        {
          assert es[i..][1..] == es[i + 1..];
          if es[i].key != id {
            store := SetFlag(store, es[i].key, false);
          }
          i := i + 1;
        }
      }
      if !writeSucceeds {
        ui := ui.(isLoading := false, isSuccess := false, errorMessage := Some("Failed to update address: " + failure));
        return;
      }
      store := SetChild(store, id, UpdateChildren(Node(store, id), data));
      ui := ui.(isLoading := false, isSuccess := true, errorMessage := None);
    }

    method ValidateForm() returns (ok: bool)
      ensures ok == Complete(ui.form)
    {
      ok := !IsBlank(ui.form.fullName) && !IsBlank(ui.form.phoneNumber) && !IsBlank(ui.form.address)
            && !IsBlank(ui.form.city) && !IsBlank(ui.form.state) && !IsBlank(ui.form.zipCode);
    }
  }
}
