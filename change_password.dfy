/** The change-password screen: the three checks, the re-authentication and
  * update steps with their messages, and the success reset. */
module ChangePassword {
  import opened Common
  import opened Snapshot
  import SignIn

  const CurrentEmpty := "Current password must not be empty"
  const NewEmpty := "New password must not be empty"
  const NewTooShort := "Password must be at least 8 characters long"
  const NewTooWeak := "Password must include uppercase, lowercase, number, and special character"
  const ConfirmMismatch := "Confirm new password must not be empty and must match the new password"
  const WrongCurrent := "Incorrect current password. Please try again."
  const SessionExpired := "Authentication session expired. Please sign in again."
  const NotLoggedIn := "User not logged in"
  const Changed := "Password changed successfully"

  predicate HasUpper(p: string) { exists i :: 0 <= i < |p| && IsUpper(p[i]) }
  predicate HasLower(p: string) { exists i :: 0 <= i < |p| && IsLower(p[i]) }
  predicate HasDigit(p: string) { exists i :: 0 <= i < |p| && IsDigit(p[i]) }
  predicate HasSpecial(p: string) { exists i :: 0 <= i < |p| && !IsLetterOrDigit(p[i]) }

  /** The four character classes the new password must mix. */
  predicate MixesClasses(p: string)
  {
    HasUpper(p) && HasLower(p) && HasDigit(p) && HasSpecial(p)
  }

  /** The message the first failing check sets, or None when all pass: the
    * current password, then the new one (empty, short, weak), then the
    * confirmation. */
  function ChangeProblem(current: string, newPassword: string, confirm: string): (r: Option<string>)
    ensures r.None? <==> current != "" && |newPassword| >= 8 && MixesClasses(newPassword) && confirm != "" && confirm == newPassword
    ensures current == "" ==> r == Some(CurrentEmpty)
    ensures current != "" && newPassword == "" ==> r == Some(NewEmpty)
    ensures current != "" && 0 < |newPassword| < 8 ==> r == Some(NewTooShort)
    ensures current != "" && |newPassword| >= 8 && !MixesClasses(newPassword) ==> r == Some(NewTooWeak)
    ensures current != "" && |newPassword| >= 8 && MixesClasses(newPassword) && confirm != newPassword ==> r == Some(ConfirmMismatch)
  {
    if current == "" then Some(CurrentEmpty)
    else if newPassword == "" then Some(NewEmpty)
    else if |newPassword| < 8 then Some(NewTooShort)
    else if !MixesClasses(newPassword) then Some(NewTooWeak)
    else if confirm == "" || confirm != newPassword then Some(ConfirmMismatch)
    else None
  }

  /** A password that passes lasts long enough for sign-in too; an all
    * lower-case one is refused as weak, and one with all four classes is
    * accepted. */
  lemma ChangeProblemExamples()
    ensures ChangeProblem("old", "abcdefgh", "abcdefgh") == Some(NewTooWeak)
    ensures ChangeProblem("old", "Abcdef1!", "Abcdef1!") == None
    ensures ChangeProblem("old", "Abcdef1!", "Abcdef1?") == Some(ConfirmMismatch)
  {
    var weak := "abcdefgh";
    assert !HasUpper(weak);
    var strong := "Abcdef1!";
    assert IsUpper(strong[0]) && IsLower(strong[1]) && IsDigit(strong[6]) && !IsLetterOrDigit(strong[7]);
  }

  /** A new password the screen accepts also passes sign-in's length check. */
  lemma AcceptedPasswordSignsIn(email: string, current: string, newPassword: string, confirm: string)
    requires email != ""
    requires ChangeProblem(current, newPassword, confirm).None?
    ensures SignIn.SignInProblem(email, newPassword).None?
  {
  }

  /** An exception as the handlers see it; its message may be null. */
  datatype Exception = Exception(message: Option<string>)

  /** A task that succeeded, or failed with an exception, possibly none. */
  datatype TaskResult = Succeeded | Failed(exception: Option<Exception>)

  /** `"Error: ${e.message}"` for the exception rethrown, or for a fresh one
    * with the fallback message; a null message prints as "null". */
  function ErrorText(exception: Option<Exception>, fallback: string): (r: string)
    ensures exception.Some? && exception.value.message.Some? ==> r == "Error: " + exception.value.message.value
    ensures exception.Some? && exception.value.message.None? ==> r == "Error: null"
    ensures exception.None? ==> r == "Error: " + fallback
  {
    var message := if exception.Some? then exception.value.message else Some(fallback);
    "Error: " + message.GetOr("null")
  }

  /** The message set when re-authentication fails: a message mentioning
    * "invalid" means a wrong password, one mentioning "malformed" or
    * "expired" an expired session; anything else is rethrown. */
  function ReauthFailureText(exception: Option<Exception>): (r: string)
    ensures var m := if exception.Some? then exception.value.message else None;
      && (m.Some? && Contains(m.value, "invalid") ==> r == WrongCurrent)
      && (m.Some? && !Contains(m.value, "invalid") && (Contains(m.value, "malformed") || Contains(m.value, "expired")) ==>
          r == SessionExpired)
      && (!(m.Some? && (Contains(m.value, "invalid") || Contains(m.value, "malformed") || Contains(m.value, "expired"))) ==>
          r == ErrorText(exception, "Authentication failed"))
  {
    var m := if exception.Some? then exception.value.message else None;
    if m.Some? && Contains(m.value, "invalid") then WrongCurrent
    else if m.Some? && (Contains(m.value, "malformed") || Contains(m.value, "expired")) then SessionExpired
    else ErrorText(exception, "Authentication failed")
  }

  /** `users/{uid}/password` set to the new password. */
  function PasswordStored(users: Value, uid: string, newPassword: string): (r: Value)
  {
    SetChild(users, uid, SetChild(Node(users, uid), "password", Str(newPassword)))
  }

  /** The stored password reads back as the new one; the user's other
    * fields and every other user are untouched. */
  lemma PasswordStoredReadBack(users: Value, uid: string, newPassword: string, field: string, other: string)
    ensures GetString(Node(PasswordStored(users, uid, newPassword), uid), "password") == Found(newPassword)
    ensures field != "password" ==> Child(Node(PasswordStored(users, uid, newPassword), uid), field) == Child(Node(users, uid), field)
    ensures other != uid ==> Child(PasswordStored(users, uid, newPassword), other) == Child(users, other)
  {
    var node := SetChild(Node(users, uid), "password", Str(newPassword));
    LookupReplace(Children(users), uid, node, other);
    LookupReplace(Children(Node(users, uid)), "password", Str(newPassword), field);
  }

  datatype ChangeUi = ChangeUi(
    errorMessage: Option<string>,
    successMessage: Option<string>,
    oldPassword: string,
    newPassword: string,
    confirmNewPassword: string)

  const InitialChangeUi := ChangeUi(None, None, "", "", "")

  class ChangePasswordViewModel {
    var ui: ChangeUi
    /** The `users` node. */
    var users: Value

    constructor(users: Value)
      ensures ui == InitialChangeUi && this.users == users
    {
      ui := InitialChangeUi;
      this.users := users;
    }

    method UpdateOldPassword(oldPassword: string)
      modifies this
      ensures ui == old(ui).(oldPassword := oldPassword) && users == old(users)
    {
      ui := ui.(oldPassword := oldPassword);
    }

    method UpdateNewPassword(newPassword: string)
      modifies this
      ensures ui == old(ui).(newPassword := newPassword) && users == old(users)
    {
      ui := ui.(newPassword := newPassword);
    }

    method UpdateConfirmNewPassword(confirmNewPassword: string)
      modifies this
      ensures ui == old(ui).(confirmNewPassword := confirmNewPassword) && users == old(users)
    {
      ui := ui.(confirmNewPassword := confirmNewPassword);
    }

    /** `changePassword`. The checks run in order and the first failure's
      * message is set. Then `account` is the signed-in user's id when that
      * user has an e-mail; `reauth` and `update` are the two authentication
      * tasks and `writeFailure` the failure of the database write, if any.
      * A successful change stores the password, sets the success message and
      * empties the three fields; every failure sets only the error. */
    method ChangePassword(account: Option<string>, reauth: TaskResult, update: TaskResult,
                          writeFailure: Option<Exception>)
      modifies this
      ensures var problem := ChangeProblem(old(ui).oldPassword, old(ui).newPassword, old(ui).confirmNewPassword);
        problem.Some? ==> ui == old(ui).(errorMessage := problem) && users == old(users)
      ensures var problem := ChangeProblem(old(ui).oldPassword, old(ui).newPassword, old(ui).confirmNewPassword);
        problem.None? && account.None? ==> ui == old(ui).(errorMessage := Some(NotLoggedIn)) && users == old(users)
      ensures var problem := ChangeProblem(old(ui).oldPassword, old(ui).newPassword, old(ui).confirmNewPassword);
        problem.None? && account.Some? && reauth.Failed? ==>
          ui == old(ui).(errorMessage := Some(ReauthFailureText(reauth.exception))) && users == old(users)
      ensures var problem := ChangeProblem(old(ui).oldPassword, old(ui).newPassword, old(ui).confirmNewPassword);
        problem.None? && account.Some? && reauth.Succeeded? && update.Failed? ==>
          ui == old(ui).(errorMessage := Some(ErrorText(update.exception, "Failed to change password")))
          && users == old(users)
      ensures var problem := ChangeProblem(old(ui).oldPassword, old(ui).newPassword, old(ui).confirmNewPassword);
        problem.None? && account.Some? && reauth.Succeeded? && update.Succeeded? && writeFailure.Some? ==>
          ui == old(ui).(errorMessage := Some(ErrorText(writeFailure, "")))
          && users == old(users)
      ensures var problem := ChangeProblem(old(ui).oldPassword, old(ui).newPassword, old(ui).confirmNewPassword);
        problem.None? && account.Some? && reauth.Succeeded? && update.Succeeded? && writeFailure.None? ==>
          ui == old(ui).(successMessage := Some(Changed), oldPassword := "", newPassword := "", confirmNewPassword := "")
          && users == PasswordStored(old(users), account.value, old(ui).newPassword)
    {
      var problem := ChangeProblem(ui.oldPassword, ui.newPassword, ui.confirmNewPassword);
      if problem.Some? {
        ui := ui.(errorMessage := problem);
        return;
      }
      if account.None? {
        ui := ui.(errorMessage := Some(NotLoggedIn));
        return;
      }
      if reauth.Failed? {
        ui := ui.(errorMessage := Some(ReauthFailureText(reauth.exception)));
        return;
      }
      if update.Failed? {
        ui := ui.(errorMessage := Some(ErrorText(update.exception, "Failed to change password")));
        return;
      }
      if writeFailure.Some? {
        ui := ui.(errorMessage := Some(ErrorText(writeFailure, "")));
        return;
      }
      users := PasswordStored(users, account.value, ui.newPassword);
      ui := ui.(successMessage := Some(Changed), oldPassword := "", newPassword := "", confirmNewPassword := "");
    }

    /** `clearMessages`: both messages go, the fields stay. */
    method ClearMessages()
      modifies this
      ensures ui == old(ui).(errorMessage := None, successMessage := None) && users == old(users)
    {
      ui := ui.(errorMessage := None, successMessage := None);
    }
  }
}
