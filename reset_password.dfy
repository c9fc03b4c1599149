/** The reset-password screen: the e-mail check and the outcomes of asking
  * for a reset e-mail. */
module ResetPassword {
  import opened Common

  // ----- the pattern `[a-zA-Z0-9._-]+@[a-z]+\.+[a-z]+` ---------------------

  /** The class `[a-zA-Z0-9._-]`. */
  predicate IsLocalChar(c: char)
  {
    IsLetterOrDigit(c) || c == '.' || c == '_' || c == '-'
  }

  predicate LocalIn(s: string, a: int, b: int)
    requires 0 <= a <= b <= |s|
  {
    forall i :: a <= i < b ==> IsLocalChar(s[i])
  }

  predicate LowerIn(s: string, a: int, b: int)
    requires 0 <= a <= b <= |s|
  {
    forall i :: a <= i < b ==> IsLower(s[i])
  }

  predicate DotsIn(s: string, a: int, b: int)
    requires 0 <= a <= b <= |s|
  {
    forall i :: a <= i < b ==> s[i] == '.'
  }

  /** `s.matches(pattern.toRegex())`: the WHOLE string is one or more
    * characters of `[a-zA-Z0-9._-]` (up to `p`), an '@', one or more
    * lower-case letters (up to `q`), one or more dots (up to `r`) and one or
    * more lower-case letters. */
  predicate EmailPattern(s: string)
  {
    exists p, q, r :: 0 < p && p + 1 < q < r < |s|
      && LocalIn(s, 0, p) && s[p] == '@' && LowerIn(s, p + 1, q)
      && DotsIn(s, q, r) && LowerIn(s, r, |s|)
  }

  /** What may follow once the dots have started: more dots, then one or
    * more lower-case letters. */
  predicate DotsLang(t: string)
  {
    exists r :: 0 <= r < |t| && DotsIn(t, 0, r) && LowerIn(t, r, |t|)
  }

  /** What may follow inside the first domain part. */
  predicate DomainLang(t: string)
  {
    exists q, r :: 0 <= q < r < |t| && LowerIn(t, 0, q) && DotsIn(t, q, r) && LowerIn(t, r, |t|)
  }

  /** What may follow the '@'. */
  predicate AtLang(t: string)
  {
    exists q, r :: 0 < q < r < |t| && LowerIn(t, 0, q) && DotsIn(t, q, r) && LowerIn(t, r, |t|)
  }

  /** What may follow inside the local part. */
  predicate LocalLang(t: string)
  {
    exists p, q, r :: 0 <= p && p + 1 < q < r < |t| && LocalIn(t, 0, p) && t[p] == '@'
      && LowerIn(t, p + 1, q) && DotsIn(t, q, r) && LowerIn(t, r, |t|)
  }

  /** What a string in the pattern looks like: it has an '@' after at least
    * one character; after an '@' there are only lower-case letters and dots
    * (so no second '@' and no capital in the domain); and once a letter
    * follows a dot after the '@', only letters follow (a single run of
    * dots). */
  lemma EmailShape(s: string)
    requires EmailPattern(s)
    ensures exists p :: 0 < p < |s| && s[p] == '@'
    ensures forall i, j :: 0 <= i < j < |s| && s[i] == '@' ==> IsLower(s[j]) || s[j] == '.'
    ensures forall i, j, k, l :: 0 <= i < j < k < l < |s| && s[i] == '@' && s[j] == '.' && IsLower(s[k]) ==>
      IsLower(s[l])
  {
    var p, q, r :| 0 < p && p + 1 < q < r < |s|
      && LocalIn(s, 0, p) && s[p] == '@' && LowerIn(s, p + 1, q)
      && DotsIn(s, q, r) && LowerIn(s, r, |s|);
    forall i | 0 <= i < p
      ensures s[i] != '@'
    {
      assert IsLocalChar(s[i]);
    }
    forall i | p < i < |s|
      ensures IsLower(s[i]) || s[i] == '.'
    {
    }
  }

  /** A domain with two dotted parts is refused. */
  lemma TwoPartDomainRefused()
    ensures !EmailPattern("a@b.co.uk")
  {
    MatchesEmailExactly("a@b.co.uk");
    assert !MatchesEmail("a@b.co.uk");
  }

  /** A capital letter in the domain is refused. */
  lemma CapitalDomainRefused()
    ensures !EmailPattern("a@Mail.com")
  {
    MatchesEmailExactly("a@Mail.com");
    assert !MatchesEmail("a@Mail.com");
  }

  /** An ordinary address is accepted. */
  lemma PlainAddressAccepted()
    ensures EmailPattern("john.doe@mail.com")
  {
    var u := "john.doe@mail.com";
    assert LocalIn(u, 0, 8) && u[8] == '@' && LowerIn(u, 9, 13) && DotsIn(u, 13, 14) && LowerIn(u, 14, |u|);
  }

  // ----- a recogniser for the pattern ---------------------------------------

  /** The states of a left-to-right scan: before the first local character,
    * inside the local part, just after '@', inside the first domain part,
    * inside the dots, inside the last part, and refused. */
  datatype Scan = Start | Local | At | Domain | Dots | Tld | Reject

  function Step(state: Scan, c: char): (r: Scan)
  {
    match state
    case Start => if IsLocalChar(c) then Local else Reject
    case Local => if IsLocalChar(c) then Local else if c == '@' then At else Reject
    case At => if IsLower(c) then Domain else Reject
    case Domain => if IsLower(c) then Domain else if c == '.' then Dots else Reject
    case Dots => if c == '.' then Dots else if IsLower(c) then Tld else Reject
    case Tld => if IsLower(c) then Tld else Reject
    case Reject => Reject
  }

  function Run(state: Scan, s: string): (r: Scan)
    decreases s
  {
    if s == [] then state else Run(Step(state, s[0]), s[1..])
  }

  /** The pattern check as the screen performs it. */
  predicate MatchesEmail(s: string)
  {
    Run(Start, s) == Tld
  }

  lemma {:induction false} RunReject(t: string)
    ensures Run(Reject, t) == Reject
  {
    if t != [] {
      RunReject(t[1..]);
    }
  }

  lemma {:induction false} RunTld(t: string)
    ensures Run(Tld, t) == Tld <==> LowerIn(t, 0, |t|)
  {
    if t != [] {
      if IsLower(t[0]) {
        RunTld(t[1..]);
        assert LowerIn(t, 0, |t|) <==> LowerIn(t[1..], 0, |t| - 1);
      } else {
        RunReject(t[1..]);
      }
    }
  }

  lemma {:induction false} RunDots(t: string)
    ensures Run(Dots, t) == Tld <==> DotsLang(t)
  {
    if t != [] {
      var u := t[1..];
      if t[0] == '.' {
        RunDots(u);
        if r :| 0 <= r < |t| && DotsIn(t, 0, r) && LowerIn(t, r, |t|) {
          assert r != 0;
          assert DotsIn(u, 0, r - 1) && LowerIn(u, r - 1, |u|);
        }
        if r :| 0 <= r < |u| && DotsIn(u, 0, r) && LowerIn(u, r, |u|) {
          assert DotsIn(t, 0, r + 1) && LowerIn(t, r + 1, |t|);
        }
      } else if IsLower(t[0]) {
        RunTld(u);
        if r :| 0 <= r < |t| && DotsIn(t, 0, r) && LowerIn(t, r, |t|) {
          assert r == 0;
          assert LowerIn(u, 0, |u|);
        }
        if LowerIn(u, 0, |u|) {
          assert DotsIn(t, 0, 0) && LowerIn(t, 0, |t|);
        }
      } else {
        RunReject(u);
      }
    }
  }

  lemma {:induction false} RunDomain(t: string)
    ensures Run(Domain, t) == Tld <==> DomainLang(t)
  {
    if t != [] {
      var u := t[1..];
      if IsLower(t[0]) {
        RunDomain(u);
        if q, r :| 0 <= q < r < |t| && LowerIn(t, 0, q) && DotsIn(t, q, r) && LowerIn(t, r, |t|) {
          assert q != 0;
          assert LowerIn(u, 0, q - 1) && DotsIn(u, q - 1, r - 1) && LowerIn(u, r - 1, |u|);
        }
        if q, r :| 0 <= q < r < |u| && LowerIn(u, 0, q) && DotsIn(u, q, r) && LowerIn(u, r, |u|) {
          assert LowerIn(t, 0, q + 1) && DotsIn(t, q + 1, r + 1) && LowerIn(t, r + 1, |t|);
        }
      } else if t[0] == '.' {
        RunDots(u);
        if q, r :| 0 <= q < r < |t| && LowerIn(t, 0, q) && DotsIn(t, q, r) && LowerIn(t, r, |t|) {
          assert q == 0;
          assert DotsIn(u, 0, r - 1) && LowerIn(u, r - 1, |u|);
        }
        if r :| 0 <= r < |u| && DotsIn(u, 0, r) && LowerIn(u, r, |u|) {
          assert LowerIn(t, 0, 0) && DotsIn(t, 0, r + 1) && LowerIn(t, r + 1, |t|);
        }
      } else {
        RunReject(u);
      }
    }
  }

  lemma {:induction false} RunAt(t: string)
    ensures Run(At, t) == Tld <==> AtLang(t)
  {
    if t != [] {
      var u := t[1..];
      if IsLower(t[0]) {
        RunDomain(u);
        if q, r :| 0 < q < r < |t| && LowerIn(t, 0, q) && DotsIn(t, q, r) && LowerIn(t, r, |t|) {
          assert LowerIn(u, 0, q - 1) && DotsIn(u, q - 1, r - 1) && LowerIn(u, r - 1, |u|);
        }
        if q, r :| 0 <= q < r < |u| && LowerIn(u, 0, q) && DotsIn(u, q, r) && LowerIn(u, r, |u|) {
          assert LowerIn(t, 0, q + 1) && DotsIn(t, q + 1, r + 1) && LowerIn(t, r + 1, |t|);
        }
      } else {
        RunReject(u);
      }
    }
  }

  lemma {:induction false} RunLocal(t: string)
    ensures Run(Local, t) == Tld <==> LocalLang(t)
  {
    if t != [] {
      var u := t[1..];
      if IsLocalChar(t[0]) {
        RunLocal(u);
        if p, q, r :| (0 <= p && p + 1 < q < r < |t|
          && LocalIn(t, 0, p) && t[p] == '@' && LowerIn(t, p + 1, q)
          && DotsIn(t, q, r) && LowerIn(t, r, |t|))
        {
          assert p != 0;
          assert LocalIn(u, 0, p - 1) && u[p - 1] == '@' && LowerIn(u, p, q - 1)
            && DotsIn(u, q - 1, r - 1) && LowerIn(u, r - 1, |u|);
        }
        if p, q, r :| (0 <= p && p + 1 < q < r < |u|
          && LocalIn(u, 0, p) && u[p] == '@' && LowerIn(u, p + 1, q)
          && DotsIn(u, q, r) && LowerIn(u, r, |u|))
        {
          assert LocalIn(t, 0, p + 1) && t[p + 1] == '@' && LowerIn(t, p + 2, q + 1)
            && DotsIn(t, q + 1, r + 1) && LowerIn(t, r + 1, |t|);
        }
      } else if t[0] == '@' {
        RunAt(u);
        if p, q, r :| (0 <= p && p + 1 < q < r < |t|
          && LocalIn(t, 0, p) && t[p] == '@' && LowerIn(t, p + 1, q)
          && DotsIn(t, q, r) && LowerIn(t, r, |t|))
        {
          assert p == 0;
          assert LowerIn(u, 0, q - 1) && DotsIn(u, q - 1, r - 1) && LowerIn(u, r - 1, |u|);
        }
        if q, r :| 0 < q < r < |u| && LowerIn(u, 0, q) && DotsIn(u, q, r) && LowerIn(u, r, |u|) {
          assert LocalIn(t, 0, 0) && LowerIn(t, 1, q + 1) && DotsIn(t, q + 1, r + 1) && LowerIn(t, r + 1, |t|);
        }
      } else {
        RunReject(u);
      }
    }
  }

  /** The scan accepts exactly the strings the pattern matches as a whole. */
  lemma {:induction false} MatchesEmailExactly(s: string)
    ensures MatchesEmail(s) <==> EmailPattern(s)
  {
    if s != [] {
      var u := s[1..];
      if IsLocalChar(s[0]) {
        RunLocal(u);
        if EmailPattern(s) {
          var p, q, r :| 0 < p && p + 1 < q < r < |s|
            && LocalIn(s, 0, p) && s[p] == '@' && LowerIn(s, p + 1, q)
            && DotsIn(s, q, r) && LowerIn(s, r, |s|);
          assert LocalIn(u, 0, p - 1) && u[p - 1] == '@' && LowerIn(u, p, q - 1)
            && DotsIn(u, q - 1, r - 1) && LowerIn(u, r - 1, |u|);
        }
        if p, q, r :| (0 <= p && p + 1 < q < r < |u|
          && LocalIn(u, 0, p) && u[p] == '@' && LowerIn(u, p + 1, q)
          && DotsIn(u, q, r) && LowerIn(u, r, |u|))
        {
          assert LocalIn(s, 0, p + 1) && s[p + 1] == '@' && LowerIn(s, p + 2, q + 1)
            && DotsIn(s, q + 1, r + 1) && LowerIn(s, r + 1, |s|);
        }
      } else {
        RunReject(u);
      }
    }
  }

  // ----- the screen state ---------------------------------------------------

  datatype ResetUi = ResetUi(email: string, isLoading: bool, isSuccess: bool, errorMessage: Option<string>)

  const InitialResetUi := ResetUi("", false, false, None)

  /** The message `validateEmail` sets, or None when the e-mail passes: the
    * empty check comes before the pattern. */
  function EmailProblem(email: string): (r: Option<string>)
    ensures r.None? <==> email != "" && EmailPattern(email)
    ensures email == "" ==> r == Some("Email cannot be empty")
    ensures email != "" && !EmailPattern(email) ==> r == Some("Please enter a valid email")
  {
    MatchesEmailExactly(email);
    if email == "" then Some("Email cannot be empty")
    else if !MatchesEmail(email) then Some("Please enter a valid email")
    else None
  }

  class ResetPasswordViewModel {
    var ui: ResetUi

    constructor()
      ensures ui == InitialResetUi
    {
      ui := InitialResetUi;
    }

    method UpdateEmail(email: string)
      modifies this
      ensures ui == old(ui).(email := email)
    {
      ui := ui.(email := email);
    }

    /** `validateEmail`: true iff the e-mail passes; a failure sets only the
      * error message. */
    method ValidateEmail() returns (ok: bool)
      modifies this
      ensures ok <==> EmailProblem(old(ui).email).None?
      ensures ok ==> ui == old(ui)
      ensures !ok ==> ui == old(ui).(errorMessage := EmailProblem(old(ui).email))
    {
      if ui.email == [] {
        ui := ui.(errorMessage := Some("Email cannot be empty"));
        return false;
      }
      if !MatchesEmail(ui.email) {
        MatchesEmailExactly(ui.email);
        ui := ui.(errorMessage := Some("Please enter a valid email"));
        return false;
      }
      MatchesEmailExactly(ui.email);
      return true;
    }

    /** `resetPassword`: nothing is sent unless the e-mail passes; then the
      * send either succeeds or fails with the exception's message, or a
      * fixed text when it has none. `sent` tells whether a request left. */
    method ResetPassword(sendSucceeds: bool, failure: Option<string>) returns (sent: bool)
      modifies this
      ensures sent <==> EmailProblem(old(ui).email).None?
      ensures !sent ==> ui == old(ui).(errorMessage := EmailProblem(old(ui).email))
      ensures sent && sendSucceeds ==>
        ui == old(ui).(isLoading := false, isSuccess := true, errorMessage := None)
      ensures sent && !sendSucceeds ==>
        ui == old(ui).(isLoading := false, errorMessage := Some(failure.GetOr("Failed to send reset email")))
    {
      var ok := ValidateEmail();
      if !ok {
        return false;
      }
      ui := ui.(isLoading := true, errorMessage := None);
      if sendSucceeds {
        ui := ui.(isLoading := false, isSuccess := true);
      } else {
        ui := ui.(isLoading := false, errorMessage := Some(failure.GetOr("Failed to send reset email")));
      }
      return true;
    }
  }
}
