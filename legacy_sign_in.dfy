/** The older sign-in screen: the same two checks, with no banned-user
  * check and no "forgot password" request. */
module LegacySignIn {
  import opened Common
  import opened SignIn

  class LegacySignInViewModel {
    var ui: SignInUi
    /** Whether the authentication service has a current user. */
    var signedIn: bool

    /** `init`: `hasUser` tells whether someone is already signed in. */
    constructor(signedIn: bool)
      ensures ui == InitialSignInUi.(hasUser := signedIn) && this.signedIn == signedIn
    {
      ui := InitialSignInUi.(hasUser := signedIn);
      this.signedIn := signedIn;
    }

    method UpdateEmail(email: string)
      modifies this
      ensures ui == old(ui).(email := email) && signedIn == old(signedIn)
    {
      ui := ui.(email := email);
    }

    method UpdatePassword(password: string)
      modifies this
      ensures ui == old(ui).(password := password) && signedIn == old(signedIn)
    {
      ui := ui.(password := password);
    }

    /** `signIn`: the checks read the screen's fields and the first failure's
      * message is set; otherwise any signed-in answer is a success. */
    method SignIn(signInSucceeds: bool, failure: Option<string>) returns (started: bool)
      modifies this
      ensures started <==> SignInProblem(old(ui).email, old(ui).password).None?
      ensures !started ==>
        ui == old(ui).(errorMessage := SignInProblem(old(ui).email, old(ui).password)) && signedIn == old(signedIn)
      ensures started && signInSucceeds ==>
        ui == old(ui).(isLoading := false, isSuccess := true, errorMessage := Some("")) && signedIn
      ensures started && !signInSucceeds ==>
        ui == old(ui).(isLoading := false, errorMessage := failure) && signedIn == old(signedIn)
    {
      var problem := SignInProblem(ui.email, ui.password);
      if problem.Some? {
        ui := ui.(errorMessage := problem);
        return false;
      }
      ui := ui.(isLoading := true, errorMessage := Some(""));
      if signInSucceeds {
        signedIn := true;
        ui := ui.(isSuccess := true, isLoading := false);
      } else {
        ui := ui.(errorMessage := failure, isLoading := false);
      }
      return true;
    }

    /** `resetSignInState`: only `isSuccess` and `hasUser` are cleared. */
    method ResetSignInState()
      modifies this
      ensures ui == old(ui).(isSuccess := false, hasUser := false) && signedIn == old(signedIn)
    {
      ui := ui.(isSuccess := false, hasUser := false);
    }
  }
}
