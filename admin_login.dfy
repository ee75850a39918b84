/** The admin sign-in form: sign-in with the new-password challenge, the
    new-password submission and the guest button. The Cognito calls are
    inputs; the `confirmSignIn` requests and the navigation are recorded;
    localStorage is a `Storage` object. */
module AdminLogin {
  import opened Common
  import opened Storage

  /** The outcome of `signIn`: signed in, another step, or an error. */
  datatype SignInResult = SignedIn | NextStep(signInStep: string) | SignInThrew(message: string)

  /** The outcome of `fetchAuthSession`: the two tokens, each possibly
      absent, or an error. */
  datatype SessionResult = Tokens(accessToken: Option<string>, idToken: Option<string>) | SessionThrew(message: string)

  /** The outcome of `confirmSignIn`. */
  datatype ConfirmResult = Confirmed | ConfirmThrew(message: string)

  /** A `confirmSignIn` request: the new password and the user attributes. */
  datatype ConfirmRequest = ConfirmRequest(challengeResponse: string, givenName: string, familyName: string, name: string)

  const NewPasswordStep := "CONFIRM_SIGN_IN_WITH_NEW_PASSWORD_REQUIRED"
  const Dashboard := "/admin-dashboard"
  const GuestToken := "guest-demo-token"
  const SetNewPassword := "Please set a new permanent password."
  const TooShort := "Password must be at least 8 characters long."
  const ChangedNoTokens := "Password changed successfully! Please sign in with your new password."

  /** Both tokens present and non-empty. */
  predicate HasBothTokens(s: SessionResult) {
    s.Tokens? && OrElse(s.accessToken, "") != "" && OrElse(s.idToken, "") != ""
  }

  /** The items after storing both tokens of a session. */
  function StoreTokens(items: map<string, string>, s: SessionResult): map<string, string>
    requires HasBothTokens(s)
  {
    items["accessToken" := s.accessToken.value]["idToken" := s.idToken.value]
  }

  /** `fullName.split('@')[0] || 'Admin'`: the part of the e-mail before the
      first '@', or "Admin" when that part is empty. */
  function DisplayName(fullName: string): (r: string)
    ensures r != [] && '@' !in r
    ensures '@' !in fullName && fullName != "" ==> r == fullName
    ensures fullName == "" || fullName[0] == '@' ==> r == "Admin"
    ensures r != "Admin" ==> exists k :: 0 < k <= |fullName| && r == fullName[..k]
  {
    var head := Split(fullName, '@')[0];
    if head == "" then "Admin"
    else
      match IndexOf(fullName, '@')
      case None => assert fullName[..|fullName|] == head; head
      case Some(i) => assert head == fullName[..i]; head
  }

  /** `!newPassword || newPassword.length < 8`, the length counted in UTF-16
      code units. */
  predicate PasswordTooShort(p: string) {
    p == "" || Utf16Length(p) < 8
  }

  lemma {:induction false} Utf16LengthBmp(s: string)
    requires forall i :: 0 <= i < |s| ==> s[i] as int < 0x10000
    ensures Utf16Length(s) == |s|
    decreases |s|
  {
    if s != [] {
      Utf16LengthBmp(s[1..]);
    }
  }

  /** A password of 8 characters or more is always accepted, one of fewer
      than 4 always rejected; within the Basic Multilingual Plane the rule
      is exactly "at least 8 characters", while a character beyond it
      counts twice. */
  lemma PasswordRule(p: string)
    ensures |p| >= 8 ==> !PasswordTooShort(p)
    ensures |p| < 4 ==> PasswordTooShort(p)
    ensures (forall i :: 0 <= i < |p| ==> p[i] as int < 0x10000) ==> (PasswordTooShort(p) <==> |p| < 8)
  {
    if forall i :: 0 <= i < |p| ==> p[i] as int < 0x10000 {
      Utf16LengthBmp(p);
    }
  }

  class LoginForm {
    var fullName: string
    var password: string
    var loginError: string
    var newPassword: string
    var showNewPasswordForm: bool
    /** The route navigated to, if any. */
    var navigatedTo: Option<string>
    /** The `confirmSignIn` requests made so far. */
    var confirmRequests: seq<ConfirmRequest>

    constructor()
      ensures fullName == "" && password == "" && loginError == "" && newPassword == "" && !showNewPasswordForm
      ensures navigatedTo.None? && confirmRequests == []
    {
      fullName := "";
      password := "";
      loginError := "";
      newPassword := "";
      showNewPasswordForm := false;
      navigatedTo := None;
      confirmRequests := [];
    }

    /** `handleLogin`. A `signOut` error is ignored. Once signed in, the
        tokens are stored and the dashboard opened only if both are
        present; otherwise nothing happens. The new-password step shows
        that form; an error shows its message or "Authentication failed". */
    method HandleLogin(storage: LocalStorage, signIn: SignInResult, session: SessionResult)
      modifies this, storage
      ensures signIn.SignedIn? && HasBothTokens(session) ==>
        storage.items == StoreTokens(old(storage.items), session) && navigatedTo == Some(Dashboard) && loginError == ""
      ensures signIn.SignedIn? && session.Tokens? && !HasBothTokens(session) ==>
        storage.items == old(storage.items) && navigatedTo == old(navigatedTo) && loginError == ""
      ensures signIn.SignedIn? && session.SessionThrew? ==>
        storage.items == old(storage.items) && loginError == OrElse(Some(session.message), "Authentication failed")
      ensures signIn.NextStep? && signIn.signInStep == NewPasswordStep ==>
        showNewPasswordForm && loginError == SetNewPassword && storage.items == old(storage.items)
      ensures signIn.NextStep? && signIn.signInStep != NewPasswordStep ==>
        loginError == "" && showNewPasswordForm == old(showNewPasswordForm) && storage.items == old(storage.items)
      ensures signIn.SignInThrew? ==>
        loginError == OrElse(Some(signIn.message), "Authentication failed") && storage.items == old(storage.items)
      ensures !(signIn.NextStep? && signIn.signInStep == NewPasswordStep) ==> showNewPasswordForm == old(showNewPasswordForm)
      ensures !(signIn.SignedIn? && HasBothTokens(session)) ==> navigatedTo == old(navigatedTo)
      ensures fullName == old(fullName) && password == old(password) && newPassword == old(newPassword)
      ensures confirmRequests == old(confirmRequests)
    {
      loginError := "";
      match signIn {
        case SignedIn =>
          if session.SessionThrew? {
            loginError := if session.message != "" then session.message else "Authentication failed";
          } else if HasBothTokens(session) {
            storage.SetItem("accessToken", session.accessToken.value);
            storage.SetItem("idToken", session.idToken.value);
            navigatedTo := Some(Dashboard);
          }
        case NextStep(step) =>
          if step == NewPasswordStep {
            showNewPasswordForm := true;
            loginError := SetNewPassword;
          }
        case SignInThrew(m) =>
          loginError := if m != "" then m else "Authentication failed";
      }
    }

    /** `handleNewPasswordSubmit`. A password that is too short is
        rejected before `confirmSignIn` is called. Otherwise the request
        carries the display name as given name and as name, "User" as family
        name; after it, a session with both tokens stores them and opens
        the dashboard, one without them sends the form back to sign-in with
        both passwords cleared; an error shows its message or the default. */
    method HandleNewPasswordSubmit(storage: LocalStorage, confirm: ConfirmResult, session: SessionResult)
      modifies this, storage
      ensures PasswordTooShort(old(newPassword)) ==>
        loginError == TooShort && confirmRequests == old(confirmRequests) && storage.items == old(storage.items)
        && showNewPasswordForm == old(showNewPasswordForm) && navigatedTo == old(navigatedTo)
        && password == old(password) && newPassword == old(newPassword)
      ensures !PasswordTooShort(old(newPassword)) ==>
        confirmRequests == old(confirmRequests)
          + [ConfirmRequest(old(newPassword), DisplayName(fullName), "User", DisplayName(fullName))]
      ensures !PasswordTooShort(old(newPassword)) && confirm.ConfirmThrew? ==>
        loginError == OrElse(Some(confirm.message), "Failed to set new password") && storage.items == old(storage.items)
      ensures !PasswordTooShort(old(newPassword)) && confirm.Confirmed? && HasBothTokens(session) ==>
        storage.items == StoreTokens(old(storage.items), session) && navigatedTo == Some(Dashboard) && loginError == ""
      ensures !PasswordTooShort(old(newPassword)) && confirm.Confirmed? && session.Tokens? && !HasBothTokens(session) ==>
        loginError == ChangedNoTokens && !showNewPasswordForm && password == "" && newPassword == ""
        && storage.items == old(storage.items) && navigatedTo == old(navigatedTo)
      ensures !PasswordTooShort(old(newPassword)) && confirm.Confirmed? && session.SessionThrew? ==>
        loginError == OrElse(Some(session.message), "Failed to set new password") && storage.items == old(storage.items)
      ensures fullName == old(fullName)
    {
      loginError := "";
      if newPassword == "" || Utf16Length(newPassword) < 8 {
        loginError := TooShort;
        return;
      }
      var name := DisplayName(fullName);
      confirmRequests := confirmRequests + [ConfirmRequest(newPassword, name, "User", name)];
      if confirm.ConfirmThrew? {
        loginError := if confirm.message != "" then confirm.message else "Failed to set new password";
        return;
      }
      if session.SessionThrew? {
        loginError := if session.message != "" then session.message else "Failed to set new password";
      } else if HasBothTokens(session) {
        storage.SetItem("accessToken", session.accessToken.value);
        storage.SetItem("idToken", session.idToken.value);
        navigatedTo := Some(Dashboard);
      } else {
        loginError := ChangedNoTokens;
        showNewPasswordForm := false;
        password := "";
        newPassword := "";
      }
    }

    /** The guest button: guest mode on, both tokens the guest token, and
        the dashboard opened. */
    method ContinueAsGuest(storage: LocalStorage)
      modifies this, storage
      ensures storage.items == old(storage.items)["guestMode" := "true"]["accessToken" := GuestToken]["idToken" := GuestToken]
      ensures navigatedTo == Some(Dashboard)
      ensures loginError == old(loginError) && showNewPasswordForm == old(showNewPasswordForm)
      ensures confirmRequests == old(confirmRequests)
    {
      storage.SetItem("guestMode", "true");
      storage.SetItem("accessToken", GuestToken);
      storage.SetItem("idToken", GuestToken);
      navigatedTo := Some(Dashboard);
    }
  }
}
