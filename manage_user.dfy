/** The admin's user list: loading the users with their ids and profile
  * pictures, and banning or unbanning one of them. */
module ManageUser {
  import opened Common
  import opened Snapshot
  import SignIn

  /** A user as the list shows it: the stored account fields, with the id,
    * picture and ban flag the admin screen uses. */
  datatype User = User(
    id: string,
    email: string,
    name: string,
    password: string,
    confirmPassword: string,
    createdAt: string,
    photoUrl: string,
    banned: bool)

  /** One child of the `users` node: its key, the decoded user and the typed
    * read of its `profileImageUrl` child. */
  datatype UserEntry = UserEntry(key: string, user: Read<User>, profileImageUrl: Read<string>)

  /** The picture shown for a decoded user: a non-empty `profileImageUrl`
    * replaces the decoded `photoUrl`; a missing or empty one does not. */
  function Photo(e: UserEntry): (r: string)
    requires e.user.Found?
    ensures e.profileImageUrl.Found? && e.profileImageUrl.value != "" ==> r == e.profileImageUrl.value
    ensures !(e.profileImageUrl.Found? && e.profileImageUrl.value != "") ==> r == e.user.value.photoUrl
  {
    if e.profileImageUrl.Found? && e.profileImageUrl.value != "" then e.profileImageUrl.value
    else e.user.value.photoUrl
  }

  /** The user an entry contributes: its key as id and its picture. */
  function Admitted(e: UserEntry): (r: User)
    requires e.user.Found?
  {
    e.user.value.(id := e.key, photoUrl := Photo(e))
  }

  /** A read in this entry throws, which aborts the whole load. */
  predicate Throws(e: UserEntry)
  {
    e.user.Thrown? || (e.user.Found? && e.profileImageUrl.Thrown?)
  }

  /** The list `loadUsers` builds, in snapshot order, or None when a read
    * throws. */
  function LoadedUsers(entries: seq<UserEntry>): (r: Option<seq<User>>)
    decreases |entries|
  {
    if entries == [] then Some([])
    else
      var before := LoadedUsers(entries[..|entries| - 1]);
      var e := entries[|entries| - 1];
      if before.None? || Throws(e) then None
      else if e.user.Absent? then before
      else Some(before.value + [Admitted(e)])
  }

  /** The load fails exactly when some entry's read throws; otherwise every
    * decoded user is in the list with its key as id, and nothing else is. */
  lemma {:induction false} LoadedUsersExactly(entries: seq<UserEntry>)
    ensures LoadedUsers(entries).None? <==> exists i :: 0 <= i < |entries| && Throws(entries[i])
    ensures LoadedUsers(entries).Some? ==>
      && (forall i :: 0 <= i < |entries| && entries[i].user.Found? ==> Admitted(entries[i]) in LoadedUsers(entries).value)
      && (forall u :: u in LoadedUsers(entries).value ==>
            exists i :: 0 <= i < |entries| && entries[i].user.Found? && u == Admitted(entries[i]))
    decreases |entries|
  {
    if entries != [] {
      var n := |entries| - 1;
      var prefix := entries[..n];
      LoadedUsersExactly(prefix);
      assert forall i :: 0 <= i < n ==> prefix[i] == entries[i];
      if LoadedUsers(prefix).Some? && !Throws(entries[n]) {
        var r := LoadedUsers(entries).value;
        forall u | u in r
          ensures exists i :: 0 <= i < |entries| && entries[i].user.Found? && u == Admitted(entries[i])
        {
          if u !in LoadedUsers(prefix).value {
            assert u == Admitted(entries[n]);
          }
        }
      }
    }
  }

  /** Every user the load admits carries the key it was stored under. */
  lemma LoadedIdsAreKeys(entries: seq<UserEntry>)
    requires LoadedUsers(entries).Some?
    ensures forall u :: u in LoadedUsers(entries).value ==> exists i :: 0 <= i < |entries| && entries[i].key == u.id
  {
    LoadedUsersExactly(entries);
  }

  /** A load that fails on a prefix fails on the whole snapshot. */
  lemma {:induction false} LoadFailureSticks(entries: seq<UserEntry>, i: nat)
    requires i <= |entries| && LoadedUsers(entries[..i]).None?
    ensures LoadedUsers(entries).None?
    decreases |entries| - i
  {
    if i < |entries| {
      assert entries[..i + 1][..i] == entries[..i];
      LoadFailureSticks(entries, i + 1);
    } else {
      assert entries[..i] == entries;
    }
  }

  /** The list after the toggle: the users with the id get the new flag, the
    * rest are kept; length and order do not change. */
  function WithBanned(users: seq<User>, userId: string, banned: bool): (r: seq<User>)
    ensures |r| == |users|
    ensures forall i :: 0 <= i < |users| && users[i].id == userId ==> r[i] == users[i].(banned := banned)
    ensures forall i :: 0 <= i < |users| && users[i].id != userId ==> r[i] == users[i]
  {
    if users == [] then []
    else [if users[0].id == userId then users[0].(banned := banned) else users[0]]
         + WithBanned(users[1..], userId, banned)
  }

  /** Banning and then unbanning (or the reverse) gives the list back, when
    * the status passed matched the listed one. */
  lemma BanThenRestore(users: seq<User>, userId: string, current: bool)
    requires forall u :: u in users && u.id == userId ==> u.banned == current
    ensures WithBanned(WithBanned(users, userId, !current), userId, current) == users
  {
    var r := WithBanned(WithBanned(users, userId, !current), userId, current);
    forall i | 0 <= i < |users|
      ensures r[i] == users[i]
    {
      assert users[i] in users;
    }
  }

  /** `users/{userId}/banned` set to `banned`. */
  function BannedStored(store: Value, userId: string, banned: bool): (r: Value)
  {
    SetChild(store, userId, SetChild(Node(store, userId), "banned", Bool(banned)))
  }

  /** The flag written is the one sign-in reads next: a banned user is
    * turned away, an unbanned one let in. Other users are untouched. */
  lemma BanReachesSignIn(store: Value, userId: string, banned: bool, other: string)
    ensures SignIn.BanStatus(BannedStored(store, userId, banned), userId) == Some(banned)
    ensures other != userId ==> Child(BannedStored(store, userId, banned), other) == Child(store, other)
  {
    var node := SetChild(Node(store, userId), "banned", Bool(banned));
    LookupReplace(Children(store), userId, node, other);
    LookupReplace(Children(Node(store, userId)), "banned", Bool(banned), "banned");
  }

  datatype ManageUserUi = ManageUserUi(
    isLoading: bool,
    isProcessing: bool,
    users: seq<User>,
    errorMessage: Option<string>,
    actionMessage: Option<string>)

  const InitialManageUserUi := ManageUserUi(false, false, [], None, None)

  const Banned := "User has been banned"
  const Unbanned := "User has been unbanned"

  class ManageUserViewModel {
    var ui: ManageUserUi
    /** The `users` node. */
    var store: Value

    constructor(store: Value)
      ensures ui == InitialManageUserUi && this.store == store
    {
      ui := InitialManageUserUi;
      this.store := store;
    }

    /** `loadUsers`: the entries of the `users` node, in order. A failed
      * read (`failure`, an exception's message) or a read that throws on an
      * entry (with the message `decodeFailure`) sets the error and keeps the
      * list. */
    method LoadUsers(entries: seq<UserEntry>, failure: Option<Option<string>>, decodeFailure: Option<string>)
      modifies this
      ensures store == old(store)
      ensures failure.None? && LoadedUsers(entries).Some? ==>
        ui == old(ui).(isLoading := false, users := LoadedUsers(entries).value)
      ensures failure.Some? ==>
        ui == old(ui).(isLoading := false, errorMessage := Some("Failed to load users: " + failure.value.GetOr("null")))
      ensures failure.None? && LoadedUsers(entries).None? ==>
        ui == old(ui).(isLoading := false, errorMessage := Some("Failed to load users: " + decodeFailure.GetOr("null")))
    {
      ui := ui.(isLoading := true);
      if failure.Some? {
        ui := ui.(isLoading := false, errorMessage := Some("Failed to load users: " + failure.value.GetOr("null")));
        return;
      }
      var users: seq<User> := [];
      var i := 0;
      while i < |entries|
        invariant 0 <= i <= |entries|
        invariant LoadedUsers(entries[..i]) == Some(users)
      {
        var e := entries[i];
        assert entries[..i + 1][..i] == entries[..i];
        if Throws(e) {
          LoadFailureSticks(entries, i + 1);
          ui := ui.(isLoading := false, errorMessage := Some("Failed to load users: " + decodeFailure.GetOr("null")));
          return;
        }
        if e.user.Found? {
          users := users + [e.user.value.(id := e.key, photoUrl := Photo(e))];
        }
        i := i + 1;
      }
      assert entries[..i] == entries;
      ui := ui.(isLoading := false, users := users);
    }

    /** `toggleUserBanStatus`: the write of `!currentBanStatus` either
      * succeeds, and the listed users with the id take the new flag with a
      * message saying which way it went, or fails with `failure`, which
      * keeps the list. Processing ends in both cases. */
    method ToggleUserBanStatus(userId: string, currentBanStatus: bool, failure: Option<Option<string>>)
      modifies this
      ensures failure.None? ==>
        store == BannedStored(old(store), userId, !currentBanStatus)
        && ui == old(ui).(isProcessing := false, users := WithBanned(old(ui).users, userId, !currentBanStatus),
                          actionMessage := Some(if !currentBanStatus then Banned else Unbanned))
      ensures failure.Some? ==>
        store == old(store)
        && ui == old(ui).(isProcessing := false,
                          errorMessage := Some("Failed to update user: " + failure.value.GetOr("null")))
    {
      ui := ui.(isProcessing := true);
      if failure.Some? {
        ui := ui.(isProcessing := false, errorMessage := Some("Failed to update user: " + failure.value.GetOr("null")));
        return;
      }
      store := BannedStored(store, userId, !currentBanStatus);
      ui := ui.(isProcessing := false, users := WithBanned(ui.users, userId, !currentBanStatus),
                actionMessage := Some(if !currentBanStatus then Banned else Unbanned));
    }

    method ClearActionMessage()
      modifies this
      ensures ui == old(ui).(actionMessage := None) && store == old(store)
    {
      ui := ui.(actionMessage := None);
    }

    method ClearErrorMessage()
      modifies this
      ensures ui == old(ui).(errorMessage := None) && store == old(store)
    {
      ui := ui.(errorMessage := None);
    }
  }
}
