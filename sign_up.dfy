/** The sign-up screen: four checks in a fixed order, the account creation
  * and the user record stored under `users/{uid}`. */
module SignUp {
  import opened Common
  import opened Snapshot
  import opened SignIn

  const NameEmpty := "Name must not be empty"
  const PasswordMismatch := "Password does not match"

  /** The message the first failing check sets, or None when all pass: e-mail,
    * then name, then password length, then the confirmation. */
  function SignUpProblem(email: string, name: string, password: string, confirmPassword: string): (r: Option<string>)
    ensures r.None? <==> email != "" && name != "" && |password| >= 6 && password == confirmPassword
    ensures email == "" ==> r == Some(EmailEmpty)
    ensures email != "" && name == "" ==> r == Some(NameEmpty)
    ensures email != "" && name != "" && |password| < 6 ==> r == Some(PasswordTooShort)
    ensures email != "" && name != "" && |password| >= 6 && password != confirmPassword ==> r == Some(PasswordMismatch)
  {
    if email == "" then Some(EmailEmpty)
    else if name == "" then Some(NameEmpty)
    else if |password| < 6 then Some(PasswordTooShort)
    else if password != confirmPassword then Some(PasswordMismatch)
    else None
  }

  /** Credentials sign-up accepts are credentials sign-in accepts, and both
    * screens give an empty e-mail the same message. */
  lemma SignUpPassesSignIn(email: string, name: string, password: string, confirmPassword: string)
    ensures SignUpProblem(email, name, password, confirmPassword).None? ==> SignInProblem(email, password).None?
    ensures email == "" ==> SignUpProblem(email, name, password, confirmPassword) == SignInProblem(email, password)
  {
  }

  /** The `UserModel` stored for a new account. */
  function UserRecord(email: string, name: string, password: string, confirmPassword: string, createdAt: string): (r: Value)
  {
    Tree([Entry("email", Str(email)), Entry("name", Str(name)), Entry("password", Str(password)),
          Entry("confirmPassword", Str(confirmPassword)), Entry("createdAt", Str(createdAt))])
  }

  /** The record written for a new user reads back the values given, holds
    * no `banned` flag (so sign-in lets the user in), and every other user's
    * node is untouched. */
  lemma UserRecordReadBack(users: Value, uid: string, email: string, name: string, password: string,
                           confirmPassword: string, createdAt: string, other: string)
    ensures var v := Node(SetChild(users, uid, UserRecord(email, name, password, confirmPassword, createdAt)), uid);
      GetString(v, "email") == Found(email) && GetString(v, "name") == Found(name)
      && GetString(v, "password") == Found(password) && GetString(v, "confirmPassword") == Found(confirmPassword)
      && GetString(v, "createdAt") == Found(createdAt)
    ensures BanStatus(SetChild(users, uid, UserRecord(email, name, password, confirmPassword, createdAt)), uid) == Some(false)
    ensures other != uid ==>
      Child(SetChild(users, uid, UserRecord(email, name, password, confirmPassword, createdAt)), other) == Child(users, other)
  {
    var record := UserRecord(email, name, password, confirmPassword, createdAt);
    var es := Children(record);
    LookupReplace(Children(users), uid, record, other);
    assert Node(SetChild(users, uid, record), uid) == record;
    LookupFirst(es, 0, "email");
    LookupFirst(es, 1, "name");
    LookupFirst(es, 2, "password");
    LookupFirst(es, 3, "confirmPassword");
    LookupFirst(es, 4, "createdAt");
    LookupMissing(es, "banned");
    BanStatusOfNewUser(users, uid, record);
  }

  datatype SignUpUi = SignUpUi(
    email: string,
    name: string,
    password: string,
    confirmPassword: string,
    errorMessage: Option<string>,
    isLoading: bool,
    isSuccess: bool)

  const InitialSignUpUi := SignUpUi("", "", "", "", Some(""), false, false)

  class SignUpViewModel {
    var ui: SignUpUi
    /** The `users` node. */
    var users: Value

    constructor(users: Value)
      ensures ui == InitialSignUpUi && this.users == users
    {
      ui := InitialSignUpUi;
      this.users := users;
    }

    method UpdateEmail(email: string)
      modifies this
      ensures ui == old(ui).(email := email) && users == old(users)
    {
      ui := ui.(email := email);
    }

    method UpdateName(name: string)
      modifies this
      ensures ui == old(ui).(name := name) && users == old(users)
    {
      ui := ui.(name := name);
    }

    method UpdatePassword(password: string)
      modifies this
      ensures ui == old(ui).(password := password) && users == old(users)
    {
      ui := ui.(password := password);
    }

    method UpdateConfirmPassword(confirmPassword: string)
      modifies this
      ensures ui == old(ui).(confirmPassword := confirmPassword) && users == old(users)
    {
      ui := ui.(confirmPassword := confirmPassword);
    }

    /** `signUp`: the checks read the screen's fields, not the arguments, and a
      * failure only sets the message. Otherwise the account is created with
      * the arguments (`auth` is the service's answer, `failure` an
      * exception's message); with a user id, the record of the arguments is
      * written under it unless `saveSucceeds` is false, a failed write being
      * ignored. `started` tells whether the service was asked. */
    method SignUp(email: string, name: string, password: string, confirmPassword: string,
                  auth: AuthOutcome, saveSucceeds: bool, createdAt: string, failure: Option<string>)
      returns (started: bool)
      modifies this
      ensures started <==> SignUpProblem(old(ui).email, old(ui).name, old(ui).password, old(ui).confirmPassword).None?
      ensures !started ==>
        ui == old(ui).(errorMessage := SignUpProblem(old(ui).email, old(ui).name, old(ui).password, old(ui).confirmPassword))
        && users == old(users)
      ensures started && auth.AuthFailed? ==>
        ui == old(ui).(isLoading := false, errorMessage := failure) && users == old(users)
      ensures started && auth.Authenticated? ==>
        ui == old(ui).(isLoading := false, isSuccess := true, errorMessage := Some(""))
      ensures started && auth.Authenticated? && auth.uid.Some? && saveSucceeds ==>
        users == SetChild(old(users), auth.uid.value, UserRecord(email, name, password, confirmPassword, createdAt))
      ensures started && auth.Authenticated? && !(auth.uid.Some? && saveSucceeds) ==> users == old(users)
    {
      var problem := SignUpProblem(ui.email, ui.name, ui.password, ui.confirmPassword);
      if problem.Some? {
        ui := ui.(errorMessage := problem);
        return false;
      }
      ui := ui.(isLoading := true, errorMessage := Some(""));
      if auth.AuthFailed? {
        ui := ui.(errorMessage := failure, isLoading := false);
        return true;
      }
      if auth.uid.Some? && saveSucceeds {
        users := SetChild(users, auth.uid.value, UserRecord(email, name, password, confirmPassword, createdAt));
      }
      ui := ui.(isSuccess := true, isLoading := false);
      return true;
    }

    /** `resetSignUpState`: only `isSuccess` is cleared. */
    method ResetSignUpState()
      modifies this
      ensures ui == old(ui).(isSuccess := false) && users == old(users)
    {
      ui := ui.(isSuccess := false);
    }
  }
}
