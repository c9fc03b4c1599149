/** The sign-in screen (the newer one, which refuses banned users): its two
  * checks, the sign-in outcomes and the "forgot password" request. */
module SignIn {
  import opened Common
  import opened Snapshot

  /** What the authentication service answers: a signed-in user, whose id
    * may be missing, or an exception. */
  datatype AuthOutcome = Authenticated(uid: Option<string>) | AuthFailed

  const EmailEmpty := "Email must not be empty"
  const PasswordTooShort := "Password must be at least 6 characters"
  const AccountBanned := "Your account has been banned. Please contact support."

  /** The message the first failing check sets, or None when both pass: the
    * e-mail is checked before the password. */
  function SignInProblem(email: string, password: string): (r: Option<string>)
    ensures r.None? <==> email != "" && |password| >= 6
    ensures email == "" ==> r == Some(EmailEmpty)
    ensures email != "" && |password| < 6 ==> r == Some(PasswordTooShort)
  {
    if email == "" then Some(EmailEmpty)
    else if |password| < 6 then Some(PasswordTooShort)
    else None
  }

  /** `users/{uid}/banned` read as a Boolean, a missing flag counting as not
    * banned; None when the stored value is not a Boolean (the read throws). */
  function BanStatus(users: Value, uid: string): (r: Option<bool>)
    ensures !Has(Node(users, uid), "banned") ==> r == Some(false)
    ensures r == Some(true) <==> Child(Node(users, uid), "banned") == Some(Bool(true))
    ensures r.None? <==> Has(Node(users, uid), "banned") && !Child(Node(users, uid), "banned").value.Bool?
  {
    OrElse(GetBool(Node(users, uid), "banned"), false)
  }

  /** Which callback `resetPassword` calls. */
  datatype Callback = OnSuccess | OnError(message: string)

  datatype SignInUi = SignInUi(
    email: string,
    password: string,
    errorMessage: Option<string>,
    isLoading: bool,
    isSuccess: bool,
    hasUser: bool)

  const InitialSignInUi := SignInUi("", "", Some(""), false, false, false)

  class SignInViewModel {
    var ui: SignInUi
    /** The `users` node. */
    const users: Value
    /** Whether the authentication service has a current user. */
    var signedIn: bool

    /** `init`: `hasUser` tells whether someone is already signed in. */
    constructor(users: Value, signedIn: bool)
      ensures ui == InitialSignInUi.(hasUser := signedIn)
      ensures this.users == users && this.signedIn == signedIn
    {
      ui := InitialSignInUi.(hasUser := signedIn);
      this.users := users;
      this.signedIn := signedIn;
    }

    method UpdateEmail(email: string)
      modifies this
      ensures ui == old(ui).(email := email) && signedIn == old(signedIn)
    {
      ui := ui.(email := email);
    }

    method UpdatePassword(password: string)
      modifies this
      ensures ui == old(ui).(password := password) && signedIn == old(signedIn)
    {
      ui := ui.(password := password);
    }

    /** `signIn`: the checks read the screen's fields, and a failure only sets
      * the message. Otherwise the service is asked (its answer is `auth`; an
      * exception carries `failure`), and a signed-in user whose `banned` flag
      * is true is signed out again with an error, `isSuccess` staying false.
      * `readSucceeds` tells whether the flag could be fetched. `started` tells
      * whether the service was asked at all. */
    method SignIn(auth: AuthOutcome, readSucceeds: bool, failure: Option<string>) returns (started: bool)
      modifies this
      ensures started <==> SignInProblem(old(ui).email, old(ui).password).None?
      ensures !started ==>
        ui == old(ui).(errorMessage := SignInProblem(old(ui).email, old(ui).password)) && signedIn == old(signedIn)
      ensures started && auth.AuthFailed? ==>
        ui == old(ui).(isLoading := false, errorMessage := failure) && signedIn == old(signedIn)
      ensures started && auth.Authenticated? && auth.uid.Some? && !readSucceeds ==>
        ui == old(ui).(isLoading := false, errorMessage := failure) && signedIn
      ensures started && auth.Authenticated? && auth.uid.Some? && readSucceeds ==>
        match BanStatus(users, auth.uid.value)
        case Some(true) => ui == old(ui).(isLoading := false, errorMessage := Some(AccountBanned)) && !signedIn
        case Some(false) => ui == old(ui).(isLoading := false, isSuccess := true, errorMessage := Some("")) && signedIn
        case None => ui == old(ui).(isLoading := false, errorMessage := failure) && signedIn
      ensures started && auth.Authenticated? && auth.uid.None? ==>
        ui == old(ui).(isLoading := false, isSuccess := true, errorMessage := Some("")) && signedIn
    {
      var problem := SignInProblem(ui.email, ui.password);
      if problem.Some? {
        ui := ui.(errorMessage := problem);
        return false;
      }
      ui := ui.(isLoading := true, errorMessage := Some(""));
      if auth.AuthFailed? {
        ui := ui.(errorMessage := failure, isLoading := false);
        return true;
      }
      signedIn := true;
      if auth.uid.Some? {
        if !readSucceeds {
          ui := ui.(errorMessage := failure, isLoading := false);
          return true;
        }
        var banned := BanStatus(users, auth.uid.value);
        if banned.None? {
          ui := ui.(errorMessage := failure, isLoading := false);
          return true;
        }
        if banned.value {
          signedIn := false;
          ui := ui.(isLoading := false, errorMessage := Some(AccountBanned));
          return true;
        }
      }
      ui := ui.(isSuccess := true, isLoading := false);
      return true;
    }

    /** `resetSignInState`: only `isSuccess` and `hasUser` are cleared. */
    method ResetSignInState()
      modifies this
      ensures ui == old(ui).(isSuccess := false, hasUser := false) && signedIn == old(signedIn)
    {
      ui := ui.(isSuccess := false, hasUser := false);
    }

    /** `resetPassword`: an empty e-mail calls `onError` and starts nothing;
      * otherwise the request is sent (its outcome is `sendSucceeds`) and the
      * loading flag ends as it started. */
    method ResetPassword(email: string, sendSucceeds: bool, failure: Option<string>) returns (called: Callback)
      modifies this
      ensures email == "" ==> called == OnError("Please enter your email address") && ui == old(ui)
      ensures email != "" && sendSucceeds ==> called == OnSuccess && ui == old(ui).(isLoading := false)
      ensures email != "" && !sendSucceeds ==>
        called == OnError(failure.GetOr("Failed to send reset email")) && ui == old(ui).(isLoading := false)
      ensures signedIn == old(signedIn)
    {
      if email == "" {
        return OnError("Please enter your email address");
      }
      ui := ui.(isLoading := true);
      ui := ui.(isLoading := false);
      if sendSucceeds {
        called := OnSuccess;
      } else {
        called := OnError(failure.GetOr("Failed to send reset email"));
      }
    }
  }

  /** A user with no `banned` child, as every account is when created, is
    * let in; only a stored `true` keeps one out. */
  lemma BanStatusOfNewUser(users: Value, uid: string, record: Value)
    requires !Has(record, "banned")
    ensures BanStatus(SetChild(users, uid, record), uid) == Some(false)
  {
    LookupReplace(Children(users), uid, record, uid);
  }
}
