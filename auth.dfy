/**
 * The sign-in panel: the checks made before the authentication service is
 * asked anything, the redirect targets it passes along, the guard on the
 * OAuth callback, and what each handler changes in the form, in the store
 * and in the alerts shown to the user.
 *
 * The service's answers are parameters; each handler returns the request it
 * sent, if any, so that a request refused by the checks is visibly never sent.
 */
module Auth {
  import opened Wrappers
  import opened Text
  import opened QuizStore

  const AuthUnavailableMessage: string := "Authentication service not available"
  const MissingCredentialsMessage: string := "Please provide both email and password"
  const ShortPasswordMessage: string := "Password must be at least 6 characters long"
  const SignUpSuccessAlert: string := "Successfully signed up! You can now sign in with your credentials."
  const SignUpFallback: string := "An error occurred during sign up"
  const SignInFallback: string := "An error occurred during sign in"
  const GoogleFallback: string := "An error occurred during Google sign in"
  const MinPasswordLength: nat := 6
  const SiteOrigin: string := "https://bamquiz.com"
  const CallbackPath: string := "/auth/callback"

  /** The parts of `window.location` the panel reads. */
  datatype Location = Location(hostname: string, origin: string)

  /** `error?.message || fallback`. */
  function AlertText(message: string, fallback: string): (m: string)
    requires fallback != ""
    ensures m != ""
    ensures message != "" ==> m == message
    ensures message == "" ==> m == fallback
  {
    if message != "" then message else fallback
  }

  /** The checks of `handleSignUp`, in order: the service, both fields present, the password's UTF-16 length. */
  function SignUpCheck(authAvailable: bool, email: string, password: string): (r: Option<string>)
    ensures r.None? <==> authAvailable && email != "" && password != "" && Utf16Length(password) >= MinPasswordLength
    ensures !authAvailable ==> r == Some(AuthUnavailableMessage)
    ensures authAvailable && (email == "" || password == "") ==> r == Some(MissingCredentialsMessage)
    ensures authAvailable && email != "" && password != "" && Utf16Length(password) < MinPasswordLength ==>
              r == Some(ShortPasswordMessage)
  {
    if !authAvailable then Some(AuthUnavailableMessage)
    else if email == "" || password == "" then Some(MissingCredentialsMessage)
    else if Utf16Length(password) < MinPasswordLength then Some(ShortPasswordMessage)
    else None
  }

  /** The checks of `handleSignIn`: the service and both fields present, with no length rule. */
  function SignInCheck(authAvailable: bool, email: string, password: string): (r: Option<string>)
    ensures r.None? <==> authAvailable && email != "" && password != ""
    ensures !authAvailable ==> r == Some(AuthUnavailableMessage)
    ensures authAvailable && (email == "" || password == "") ==> r == Some(MissingCredentialsMessage)
  {
    if !authAvailable then Some(AuthUnavailableMessage)
    else if email == "" || password == "" then Some(MissingCredentialsMessage)
    else None
  }

  /**
   * Whatever sign-up accepts, sign-in accepts too, and both report a missing
   * field the same way; a short password is refused only at sign-up.
   */
  lemma SignInChecksAreWeaker(authAvailable: bool, email: string, password: string)
    ensures SignUpCheck(authAvailable, email, password).None? ==> SignInCheck(authAvailable, email, password).None?
    ensures SignInCheck(authAvailable, email, password).Some? ==>
              SignUpCheck(authAvailable, email, password) == SignInCheck(authAvailable, email, password)
    ensures SignUpCheck(true, "a@b.c", "abc") == Some(ShortPasswordMessage)
    ensures SignInCheck(true, "a@b.c", "abc") == None
  {
    assert Utf16Length("abc") == 3;
  }

  /** The page the e-mail confirmation link leads back to. */
  function EmailRedirectTo(loc: Location): (r: string)
    ensures loc.hostname == "localhost" ==> r == loc.origin
    ensures loc.hostname != "localhost" ==> r == SiteOrigin
  {
    if loc.hostname == "localhost" then loc.origin else SiteOrigin
  }

  /** The page the OAuth provider redirects back to. */
  function RedirectTo(loc: Location): (r: string)
    ensures loc.hostname == "localhost" ==> r == loc.origin + CallbackPath
    ensures loc.hostname != "localhost" ==> r == "https://bamquiz.com/auth/callback"
  {
    if loc.hostname == "localhost" then loc.origin + CallbackPath else "https://bamquiz.com/auth/callback"
  }

  /** Both redirects go back to the same site: the OAuth one is the e-mail one plus the callback path. */
  lemma RedirectsAgree(loc: Location)
    ensures RedirectTo(loc) == EmailRedirectTo(loc) + CallbackPath
    ensures |RedirectTo(loc)| >= |CallbackPath| && RedirectTo(loc)[|RedirectTo(loc)| - |CallbackPath|..] == CallbackPath
  {
    var r := RedirectTo(loc);
    assert r[|r| - |CallbackPath|..] == CallbackPath;
  }

  /** `hash && hash.includes('access_token')`. */
  function IsAuthCallback(hash: string): (r: bool)
    ensures r <==> exists i :: 0 <= i <= |hash| && StartsWith(hash[i..], "access_token")
    ensures r ==> |hash| >= |"access_token"|
  {
    hash != "" && Includes(hash, "access_token")
  }

  datatype SignUpRequest = SignUpRequest(email: string, password: string, emailRedirectTo: string)
  datatype SignInRequest = SignInRequest(email: string, password: string)
  datatype OAuthRequest = OAuthRequest(provider: string, redirectTo: string, accessType: string, prompt: string)

  /** What the service answers: an error (its message, possibly empty), or success with or without the data asked for. */
  datatype ServiceOutcome = ServiceError(message: string) | ServiceOk(hasData: bool)

  /** The panel's form state together with a reference to the shared store. */
  class AuthForm {
    const store: Store
    var email: string
    var password: string
    var loading: bool
    var alerts: seq<string>

    ghost predicate Valid()
      reads this, store
    {
      store.Valid()
    }

    constructor (store: Store)
      requires store.Valid()
      ensures Valid() && this.store == store
      ensures email == "" && password == "" && !loading && alerts == []
    {
      this.store := store;
      email := "";
      password := "";
      loading := false;
      alerts := [];
    }

    /** `handleSignUp`: nothing is sent unless every check passes; a created user clears the form. */
    method HandleSignUp(authAvailable: bool, loc: Location, signUp: SignUpRequest -> ServiceOutcome)
      returns (sent: Option<SignUpRequest>)
      requires Valid()
      modifies this
      ensures Valid() && !loading
      ensures SignUpCheck(authAvailable, old(email), old(password)).Some? ==>
                && sent == None
                && alerts == old(alerts) + [SignUpCheck(authAvailable, old(email), old(password)).value]
                && email == old(email) && password == old(password)
      ensures SignUpCheck(authAvailable, old(email), old(password)).None? ==>
                sent == Some(SignUpRequest(old(email), old(password), EmailRedirectTo(loc)))
      ensures sent.Some? && signUp(sent.value).ServiceError? ==>
                && alerts == old(alerts) + [AlertText(signUp(sent.value).message, SignUpFallback)]
                && email == old(email) && password == old(password)
      ensures sent.Some? && signUp(sent.value) == ServiceOk(true) ==>
                alerts == old(alerts) + [SignUpSuccessAlert] && email == "" && password == ""
      ensures sent.Some? && signUp(sent.value) == ServiceOk(false) ==>
                alerts == old(alerts) && email == old(email) && password == old(password)
    {
      var check := SignUpCheck(authAvailable, email, password);
      if check.Some? {
        alerts := alerts + [check.value];
        loading := false;
        return None;
      }
      loading := true;
      var request := SignUpRequest(email, password, EmailRedirectTo(loc));
      sent := Some(request);
      match signUp(request) {
        case ServiceError(message) =>
          alerts := alerts + [AlertText(message, SignUpFallback)];
        case ServiceOk(hasUser) =>
          if hasUser {
            alerts := alerts + [SignUpSuccessAlert];
            email := "";
            password := "";
          }
      }
      loading := false;
    }

    /** `handleSignIn`: on success the user is logged in and the panel closes. */
    method HandleSignIn(authAvailable: bool, signIn: SignInRequest -> ServiceOutcome)
      returns (sent: Option<SignInRequest>)
      requires Valid()
      modifies this, store
      ensures Valid() && !loading
      ensures email == old(email) && password == old(password)
      ensures SignInCheck(authAvailable, old(email), old(password)).Some? ==>
                && sent == None
                && alerts == old(alerts) + [SignInCheck(authAvailable, old(email), old(password)).value]
                && store.State() == old(store.State())
      ensures SignInCheck(authAvailable, old(email), old(password)).None? ==>
                sent == Some(SignInRequest(old(email), old(password)))
      ensures sent.Some? && signIn(sent.value).ServiceError? ==>
                && alerts == old(alerts) + [AlertText(signIn(sent.value).message, SignInFallback)]
                && store.State() == old(store.State())
      ensures sent.Some? && signIn(sent.value).ServiceOk? ==>
                && alerts == old(alerts)
                && store.State() == Run(old(store.State()), [SetLoggedIn(true), SetShowAuth(false)])
    {
      var check := SignInCheck(authAvailable, email, password);
      if check.Some? {
        alerts := alerts + [check.value];
        loading := false;
        return None;
      }
      loading := true;
      var request := SignInRequest(email, password);
      sent := Some(request);
      match signIn(request) {
        case ServiceError(message) =>
          alerts := alerts + [AlertText(message, SignInFallback)];
        case ServiceOk(_) =>
          store.SetLoggedIn(true);
          store.SetShowAuth(false);
      }
      loading := false;
    }

    /** `handleGoogleSignIn`: always asks the provider, with the redirect chosen by host. */
    method HandleGoogleSignIn(loc: Location, signInWithOAuth: OAuthRequest -> ServiceOutcome)
      returns (sent: OAuthRequest)
      requires Valid()
      modifies this, store
      ensures Valid() && !loading
      ensures email == old(email) && password == old(password)
      ensures sent == OAuthRequest("google", RedirectTo(loc), "offline", "consent")
      ensures signInWithOAuth(sent).ServiceError? ==>
                && alerts == old(alerts) + [AlertText(signInWithOAuth(sent).message, GoogleFallback)]
                && store.State() == old(store.State())
      ensures signInWithOAuth(sent) == ServiceOk(true) ==>
                && alerts == old(alerts)
                && store.State() == Run(old(store.State()), [SetLoggedIn(true), SetShowAuth(false)])
      ensures signInWithOAuth(sent) == ServiceOk(false) ==>
                alerts == old(alerts) && store.State() == old(store.State())
    {
      loading := true;
      sent := OAuthRequest("google", RedirectTo(loc), "offline", "consent");
      match signInWithOAuth(sent) {
        case ServiceError(message) =>
          alerts := alerts + [AlertText(message, GoogleFallback)];
        case ServiceOk(hasData) =>
          if hasData {
            store.SetLoggedIn(true);
            store.SetShowAuth(false);
          }
      }
      loading := false;
    }

    /**
     * `handleAuthCallback`: only a URL fragment carrying an access token
     * makes the panel ask for the session; a session found logs the user
     * in and closes the panel, anything else changes nothing.
     */
    method HandleAuthCallback(hash: string, getSession: ServiceOutcome) returns (asked: bool)
      requires Valid()
      modifies store
      ensures Valid()
      ensures asked <==> IsAuthCallback(hash)
      ensures asked && getSession == ServiceOk(true) ==>
                store.State() == Run(old(store.State()), [SetLoggedIn(true), SetShowAuth(false)])
      ensures !(asked && getSession == ServiceOk(true)) ==> store.State() == old(store.State())
    {
      asked := IsAuthCallback(hash);
      if asked && getSession == ServiceOk(true) {
        store.SetLoggedIn(true);
        store.SetShowAuth(false);
      }
    }

    /** The close button. */
    method Close()
      requires Valid()
      modifies store
      ensures Valid()
      ensures store.State() == Apply(old(store.State()), SetShowAuth(false))
    {
      store.SetShowAuth(false);
    }
  }
}
