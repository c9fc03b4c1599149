/** The profile screen: the guest state, the fields read from the user's
  * node with their fallbacks, the order and review counts, the two profile
  * writes and signing out. */
module Profile {
  import opened Common
  import opened Snapshot

  /** The signed-in account as the authentication service reports it. */
  datatype Account = Account(uid: string, email: Option<string>, displayName: Option<string>)

  datatype ProfileUi = ProfileUi(
    name: string,
    email: string,
    profileImageUrl: string,
    orderCount: nat,
    addressCount: nat,
    lastFourDigits: string,
    reviewsCount: nat,
    isLoading: bool,
    errorMessage: Option<string>)

  const InitialProfileUi := ProfileUi("", "", "", 0, 0, "", 0, true, None)

  const GuestName := "Guest User"
  const GuestEmail := "Sign in to see your info"
  const UnnamedUser := "User 101"
  const DefaultLastFour := "34"

  /** The state shown to a visitor, and after signing out: every count zero. */
  const GuestUi := ProfileUi(GuestName, GuestEmail, "", 0, 0, "", 0, false, None)

  /** What the user's node contributes to the screen. */
  datatype ProfileFields = ProfileFields(name: string, profileImageUrl: string, addressCount: nat, lastFourDigits: string)

  /** The first payment method's `lastFourDigits`, "34" when there is no
    * payment method or it has none; None when the read throws. */
  function LastFour(node: Value): (r: Option<string>)
    ensures Children(Node(node, "paymentMethods")) == [] ==> r == Some(DefaultLastFour)
    ensures Children(Node(node, "paymentMethods")) != [] ==>
      r == OrElse(GetString(Children(Node(node, "paymentMethods"))[0].value, "lastFourDigits"), DefaultLastFour)
  {
    var methods := Children(Node(node, "paymentMethods"));
    if methods == [] then Some(DefaultLastFour)
    else OrElse(GetString(methods[0].value, "lastFourDigits"), DefaultLastFour)
  }

  /** The fields read from the user's node: the stored name, else the
    * account's display name, else "User 101"; the picture or ""; the number
    * of addresses; the last four digits. None when a read throws. */
  function FieldsOf(node: Value, displayName: Option<string>): (r: Option<ProfileFields>)
    ensures r.Some? <==> !GetString(node, "name").Thrown? && !GetString(node, "profileImageUrl").Thrown? && LastFour(node).Some?
    ensures r.Some? && GetString(node, "name").Found? ==> r.value.name == GetString(node, "name").value
    ensures r.Some? && GetString(node, "name").Absent? ==> r.value.name == displayName.GetOr(UnnamedUser)
    ensures r.Some? ==> r.value.addressCount == |Children(Node(node, "addresses"))|
  {
    var name :- OrElse(GetString(node, "name"), displayName.GetOr(UnnamedUser));
    var image :- OrElse(GetString(node, "profileImageUrl"), "");
    var lastFour :- LastFour(node);
    Some(ProfileFields(name, image, |Children(Node(node, "addresses"))|, lastFour))
  }

  /** `users/{uid}/{field}` set to the string `x`. */
  function Stored(users: Value, uid: string, field: string, x: string): (r: Value)
  {
    SetChild(users, uid, SetChild(Node(users, uid), field, Str(x)))
  }

  /** A name saved with `updateUsername` is the name the profile reads back,
    * and saving it neither breaks nor repairs the other reads. */
  lemma SavedNameReadBack(users: Value, uid: string, newName: string, displayName: Option<string>)
    ensures var f := FieldsOf(Node(Stored(users, uid, "name", newName), uid), displayName);
      f.Some? <==> !GetString(Node(users, uid), "profileImageUrl").Thrown? && LastFour(Node(users, uid)).Some?
    ensures var f := FieldsOf(Node(Stored(users, uid, "name", newName), uid), displayName);
      f.Some? ==>
        && f.value.name == newName
        && Some(f.value.profileImageUrl) == OrElse(GetString(Node(users, uid), "profileImageUrl"), "")
        && f.value.addressCount == |Children(Node(Node(users, uid), "addresses"))|
        && Some(f.value.lastFourDigits) == LastFour(Node(users, uid))
  {
    var before := Node(users, uid);
    var after := SetChild(before, "name", Str(newName));
    LookupReplace(Children(users), uid, after, uid);
    assert Node(Stored(users, uid, "name", newName), uid) == after;
    LookupReplace(Children(before), "name", Str(newName), "profileImageUrl");
    LookupReplace(Children(before), "name", Str(newName), "addresses");
    LookupReplace(Children(before), "name", Str(newName), "paymentMethods");
  }

  /** A picture saved with `updateProfilePicture` is the one the profile
    * reads back, and the name read is unchanged. */
  lemma SavedPictureReadBack(users: Value, uid: string, image: string, displayName: Option<string>)
    ensures GetString(Node(Stored(users, uid, "profileImageUrl", image), uid), "profileImageUrl") == Found(image)
    ensures GetString(Node(Stored(users, uid, "profileImageUrl", image), uid), "name") == GetString(Node(users, uid), "name")
  {
    var before := Node(users, uid);
    var after := SetChild(before, "profileImageUrl", Str(image));
    LookupReplace(Children(users), uid, after, uid);
    assert Node(Stored(users, uid, "profileImageUrl", image), uid) == after;
    LookupReplace(Children(before), "profileImageUrl", Str(image), "name");
  }

  /** The number of products, among the comment nodes, with a comment keyed
    * by the user. */
  function ReviewCount(products: seq<Entry>, uid: string): (r: nat)
    decreases |products|
  {
    if products == [] then 0
    else ReviewCount(products[..|products| - 1], uid) + (if Has(products[|products| - 1].value, uid) then 1 else 0)
  }

  /** The positions of the products the user commented on. */
  ghost function Reviewed(products: seq<Entry>, uid: string): (r: set<int>)
  {
    set i | 0 <= i < |products| && Has(products[i].value, uid)
  }

  /** The count is the number of products the user commented on, so it never
    * exceeds the number of products. */
  lemma {:induction false} ReviewCountCounts(products: seq<Entry>, uid: string)
    ensures ReviewCount(products, uid) == |Reviewed(products, uid)|
    ensures ReviewCount(products, uid) <= |products|
    decreases |products|
  {
    if products != [] {
      var n := |products| - 1;
      var prefix := products[..n];
      ReviewCountCounts(prefix, uid);
      var extra: set<int> := if Has(products[n].value, uid) then {n} else {};
      forall i
        ensures i in Reviewed(products, uid) <==> i in Reviewed(prefix, uid) + extra
      {
        if 0 <= i < n {
          assert prefix[i] == products[i];
        }
      }
      assert Reviewed(products, uid) == Reviewed(prefix, uid) + extra;
      assert n !in Reviewed(prefix, uid);
    }
  }

  class ProfileViewModel {
    var ui: ProfileUi
    /** The signed-in account, if any (`auth.currentUser`). */
    var account: Option<Account>
    /** The `users` node. */
    var users: Value

    /** `init` runs `loadUserProfile`. */
    constructor(account: Option<Account>, users: Value)
      ensures this.account == account && this.users == users
      ensures account.None? ==> ui == GuestUi
      ensures account.Some? ==> ui == InitialProfileUi.(email := account.value.email.GetOr(""))
    {
      ui := InitialProfileUi;
      this.account := account;
      this.users := users;
      new;
      LoadUserProfile();
    }

    /** `loadUserProfile`: a visitor sees the guest name and prompt; a user's
      * e-mail is shown and the node is read next. */
    method LoadUserProfile()
      modifies this
      ensures account == old(account) && users == old(users)
      ensures account.None? ==>
        ui == old(ui).(name := GuestName, email := GuestEmail, isLoading := false, errorMessage := None)
      ensures account.Some? ==>
        ui == old(ui).(isLoading := true, errorMessage := None, email := account.value.email.GetOr(""))
    {
      ui := ui.(isLoading := true, errorMessage := None);
      if account.Some? {
        ui := ui.(email := account.value.email.GetOr(""));
      } else {
        ui := ui.(name := GuestName, email := GuestEmail, isLoading := false);
      }
    }

    /** The user's node arrives. After signing out nothing happens; a read
      * that throws (with the message `decodeFailure`) sets the error;
      * otherwise the fields are shown and loading ends. */
    method OnProfileData(node: Value, decodeFailure: Option<string>)
      modifies this
      ensures account == old(account) && users == old(users)
      ensures account.None? ==> ui == old(ui)
      ensures account.Some? && FieldsOf(node, account.value.displayName).None? ==>
        ui == old(ui).(isLoading := false,
                       errorMessage := Some("Failed to load profile data: " + decodeFailure.GetOr("null")))
      ensures account.Some? && FieldsOf(node, account.value.displayName).Some? ==>
        var f := FieldsOf(node, account.value.displayName).value;
        ui == old(ui).(name := f.name, profileImageUrl := f.profileImageUrl, addressCount := f.addressCount,
                       lastFourDigits := f.lastFourDigits, isLoading := false)
    {
      if account.None? {
        return;
      }
      var fields := FieldsOf(node, account.value.displayName);
      if fields.None? {
        ui := ui.(isLoading := false, errorMessage := Some("Failed to load profile data: " + decodeFailure.GetOr("null")));
        return;
      }
      var f := fields.value;
      ui := ui.(name := f.name, profileImageUrl := f.profileImageUrl, addressCount := f.addressCount,
                lastFourDigits := f.lastFourDigits, isLoading := false);
    }

    /** The listener on the user's node is cancelled. */
    method OnCancelled(message: string)
      modifies this
      ensures ui == old(ui).(isLoading := false, errorMessage := Some(message))
      ensures account == old(account) && users == old(users)
    {
      ui := ui.(isLoading := false, errorMessage := Some(message));
    }

    /** The user's `orders` node arrives: one order per child. */
    method OnOrdersLoaded(orders: Value)
      modifies this
      ensures ui == old(ui).(orderCount := |Children(orders)|)
      ensures account == old(account) && users == old(users)
    {
      ui := ui.(orderCount := |Children(orders)|);
    }

    /** The `comments` node arrives: the products the user `userId`
      * commented on are counted. */
    method OnCommentsLoaded(comments: Value, userId: string)
      modifies this
      ensures ui == old(ui).(reviewsCount := ReviewCount(Children(comments), userId))
      ensures account == old(account) && users == old(users)
    {
      var products := Children(comments);
      var count := 0;
      var i := 0;
      while i < |products|
        invariant 0 <= i <= |products|
        invariant count == ReviewCount(products[..i], userId)
      {
        assert products[..i + 1][..i] == products[..i];
        if Has(products[i].value, userId) {
          count := count + 1;
        }
        i := i + 1;
      }
      assert products[..i] == products;
      ui := ui.(reviewsCount := count);
    }

    /** `updateProfilePicture`: for a signed-in user the picture is stored
      * and shown; a visitor's call does nothing. */
    method UpdateProfilePicture(image: string)
      modifies this
      ensures account == old(account)
      ensures account.Some? ==>
        users == Stored(old(users), account.value.uid, "profileImageUrl", image)
        && ui == old(ui).(profileImageUrl := image)
      ensures account.None? ==> users == old(users) && ui == old(ui)
    {
      if account.Some? {
        users := Stored(users, account.value.uid, "profileImageUrl", image);
        ui := ui.(profileImageUrl := image);
      }
    }

    /** `updateUsername`: for a signed-in user the name is stored and shown;
      * a visitor's call does nothing. */
    method UpdateUsername(newName: string)
      modifies this
      ensures account == old(account)
      ensures account.Some? ==>
        users == Stored(old(users), account.value.uid, "name", newName) && ui == old(ui).(name := newName)
      ensures account.None? ==> users == old(users) && ui == old(ui)
    {
      if account.Some? {
        users := Stored(users, account.value.uid, "name", newName);
        ui := ui.(name := newName);
      }
    }

    /** `signOut`: the account is gone and the whole state is the guest's. */
    method SignOut()
      modifies this
      ensures account.None? && ui == GuestUi && users == old(users)
    {
      account := None;
      ui := GuestUi;
    }

    /** `loadPlaceholderData`: fixed sample values. */
    method LoadPlaceholderData()
      modifies this
      ensures ui == old(ui).(name := "Matilda Brown", email := "matildabrown@mail.com", orderCount := 12,
                             addressCount := 3, lastFourDigits := "34", reviewsCount := 4, isLoading := false)
      ensures account == old(account) && users == old(users)
    {
      ui := ui.(name := "Matilda Brown", email := "matildabrown@mail.com", orderCount := 12, addressCount := 3,
                lastFourDigits := "34", reviewsCount := 4, isLoading := false);
    }
  }
}
