/** The login form of `LoginPage.ts`: input validation, the call to the auth service and the message modal. */
module LoginPage {
  import opened Wrappers
  import opened Text
  import Persistence
  import opened Auth

  const MissingCredentials := "Please enter both email and password."
  const LoginFailed := "Login failed. Please try again."

  /**
   * `input?.value?.trim()` for both fields, when both are non-empty: a missing input element gives
   * `undefined`, which fails the check like the empty string.
   */
  function EnteredCredentials(emailInput: Option<string>, passwordInput: Option<string>): (r: Option<(string, string)>)
    ensures r.Some? <==> (emailInput.Some? && passwordInput.Some? &&
                          Trim(emailInput.value) != "" && Trim(passwordInput.value) != "")
    ensures r.Some? ==> r.value == (Trim(emailInput.value), Trim(passwordInput.value))
    ensures r.Some? ==> r.value.0 != "" && r.value.1 != ""
  {
    match (emailInput, passwordInput)
    case (Some(e), Some(p)) =>
      if Trim(e) != "" && Trim(p) != "" then Some((Trim(e), Trim(p))) else None
    case _ => None
  }

  /** `result.message || 'Login failed. Please try again.'` */
  function FailureMessage(result: LoginResult): (m: string)
    ensures result.message.Some? && result.message.value != "" ==> m == result.message.value
    ensures result.message.None? || result.message.value == "" ==> m == LoginFailed
    ensures m != ""
  {
    match result.message
    case Some(msg) => if msg != "" then msg else LoginFailed
    case None => LoginFailed
  }

  class LoginPageComponent {
    const authService: AuthService
    var showModal: bool
    var modalMessage: string
    var isLoading: bool

    constructor(authService: AuthService)
      ensures this.authService == authService
      ensures !showModal && modalMessage == "" && !isLoading
    {
      this.authService := authService;
      showModal := false;
      modalMessage := "";
      isLoading := false;
    }

    /** `ngOnInit`: someone already logged in is sent to `/`. */
    method NgOnInit() returns (nav: Nav)
      modifies authService, authService.storage
      ensures var u := ResolveUser(old(authService.currentUser),
                                   Persistence.ReadStored(authService.browser, old(authService.storage.entries),
                                                          CurrentUserKey, authService.userCodec));
              nav == (if u.Some? then Navigate(["/"]) else NoNav) && authService.currentUser == u
      ensures authService.storage.entries ==
                LookupEntries(authService.browser, old(authService.currentUser), old(authService.storage.entries), authService.userCodec)
      ensures authService.users == old(authService.users)
    {
      var loggedIn := authService.IsLoggedIn();
      nav := if loggedIn then Navigate(["/"]) else NoNav;
    }

    /**
     * `login`: without both values the message asks for them and the service is not called;
     * otherwise the service decides, `isLoading` is cleared again, and a failure is shown.
     */
    method Login(emailInput: Option<string>, passwordInput: Option<string>, writeOk: bool) returns (nav: Nav)
      modifies this, authService, authService.storage
      ensures authService.users == old(authService.users)
      ensures EnteredCredentials(emailInput, passwordInput).None? ==>
                modalMessage == MissingCredentials && showModal && nav == NoNav && isLoading == old(isLoading) &&
                authService.currentUser == old(authService.currentUser) &&
                authService.storage.entries == old(authService.storage.entries)
      ensures EnteredCredentials(emailInput, passwordInput).Some? ==>
                var credentials := EnteredCredentials(emailInput, passwordInput).value;
                var found := Authenticate(old(authService.users), credentials.0, credentials.1);
                !isLoading &&
                (found.Some? ==> nav == LoginNavigation(found.value) && authService.currentUser == found &&
                                 authService.storage.entries ==
                                   Persistence.Written(old(authService.storage.entries), CurrentUserKey,
                                                       authService.userCodec.encode(found.value), authService.browser && writeOk) &&
                                 showModal == old(showModal) && modalMessage == old(modalMessage)) &&
                (found.None? ==> nav == NoNav && showModal &&
                                 authService.currentUser == old(authService.currentUser) &&
                                 authService.storage.entries == old(authService.storage.entries) &&
                                 modalMessage == FailureMessage(LoginResult(false, None, Some(InvalidCredentials))))
    {
      var entered := EnteredCredentials(emailInput, passwordInput);
      if entered.None? {
        modalMessage := MissingCredentials;
        showModal := true;
        return NoNav;
      }
      var (email, password) := entered.value;
      ghost var found := Authenticate(authService.users, email, password);
      isLoading := true;
      var result;
      result, nav := authService.Login(email, password, writeOk);
      isLoading := false;
      if !result.success {
        assert found.None? && result.message == Some(InvalidCredentials);
        modalMessage := FailureMessage(result);
        showModal := true;
      }
    }

    method CloseModal()
      modifies this
      ensures !showModal && modalMessage == old(modalMessage) && isLoading == old(isLoading)
    {
      showModal := false;
    }
  }
}
