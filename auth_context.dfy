/** The authentication provider (apps/web/src/context/AuthContext.tsx): the
    session fields, the browser's key-value store and the transitions that
    update them. */
module AuthContext {
  import opened Wrappers

  /** A user record as the browser keeps it: JSON text. Parsing and printing
      it are taken to be inverse, so the model keeps the text itself. */
  type UserJson = string

  const TokenKey := "token"
  const UserKey := "user"
  const LoginFailure := "Login failed"
  const RegistrationFailure := "Registration failed"

  /** `getItem`: the stored value, or null when the key is absent. */
  function Get(storage: map<string, string>, key: string): (r: Option<string>)
    ensures r.Some? <==> key in storage
    ensures r.Some? ==> r.value == storage[key]
  {
    if key in storage then Some(storage[key]) else None
  }

  /** JavaScript truthiness of a nullable string: present and not empty. */
  predicate Truthy(v: Option<string>) {
    v.Some? && v.value != ""
  }

  /** The auth service's answer to a login. */
  datatype LoginOutcome = LoggedIn(user: UserJson, token: string) | LoginError(message: string)

  /** The auth service's answer to a registration. */
  datatype RegisterOutcome = Registered | RegisterError(message: string)

  /** A call made to the auth service. */
  datatype AuthCall = LoginCall(username: string, password: string) | RegisterCall(username: string, password: string)

  /** The message an error sets: its own, or the fallback when it has none. */
  function ErrorText(message: string, fallback: string): string {
    if message == "" then fallback else message
  }

  class AuthProvider {
    var user: Option<UserJson>
    var token: Option<string>
    var isAuthenticated: bool
    var isLoading: bool
    var authError: Option<string>
    var storage: map<string, string>
    var calls: seq<AuthCall>

    /** An authenticated session always holds a token. */
    ghost predicate Valid()
      reads this
    {
      isAuthenticated ==> token.Some?
    }

    /** Mounting the provider: the token is read from storage, the session
        counts as authenticated iff a non-empty token is stored, and loading
        is on until the first verification. */
    constructor (storage: map<string, string>)
      ensures Valid()
      ensures this.storage == storage && calls == []
      ensures user == None && token == Get(storage, TokenKey)
      ensures isAuthenticated <==> Truthy(Get(storage, TokenKey))
      ensures isLoading && authError == None
    {
      this.storage := storage;
      calls := [];
      user := None;
      token := Get(storage, TokenKey);
      isAuthenticated := Truthy(Get(storage, TokenKey));
      isLoading := true;
      authError := None;
    }

    /** `verifyAuth`, after its delay. The session is taken from storage only
        when both keys hold non-empty values; it never clears a session.
        `userParses` says whether the stored user text is valid JSON: when it
        is not, parsing throws after the token was set, and loading stays on. */
    method VerifyAuth(userParses: bool)
      requires Valid()
      modifies this`token, this`user, this`isAuthenticated, this`isLoading
      ensures Valid()
      ensures Truthy(Get(storage, TokenKey)) && Truthy(Get(storage, UserKey)) ==>
        && token == Get(storage, TokenKey)
        && (userParses ==> user == Get(storage, UserKey) && isAuthenticated && !isLoading)
        && (!userParses ==> user == old(user) && isAuthenticated == old(isAuthenticated) && isLoading)
      ensures !(Truthy(Get(storage, TokenKey)) && Truthy(Get(storage, UserKey))) ==>
        && token == old(token) && user == old(user)
        && isAuthenticated == old(isAuthenticated) && !isLoading
    {
      isLoading := true;
      var storedToken := Get(storage, TokenKey);
      var storedUser := Get(storage, UserKey);
      if Truthy(storedToken) && Truthy(storedUser) {
        token := storedToken;
        if !userParses {
          return;
        }
        user := storedUser;
        isAuthenticated := true;
      }
      isLoading := false;
    }

    /** `login`: on success the session and both storage keys are set; on
        failure the error message is kept and rethrown, and nothing else
        changes. Loading is off afterwards either way. */
    method Login(username: string, password: string, outcome: LoginOutcome) returns (thrown: Option<string>)
      requires Valid()
      modifies this`user, this`token, this`isAuthenticated, this`isLoading,
               this`authError, this`storage, this`calls
      ensures Valid()
      ensures calls == old(calls) + [LoginCall(username, password)]
      ensures !isLoading
      ensures outcome.LoggedIn? ==>
        && thrown == None && authError == None
        && user == Some(outcome.user) && token == Some(outcome.token) && isAuthenticated
        && storage == old(storage)[TokenKey := outcome.token][UserKey := outcome.user]
      ensures outcome.LoginError? ==>
        && thrown == Some(outcome.message)
        && authError == Some(ErrorText(outcome.message, LoginFailure))
        && user == old(user) && token == old(token)
        && isAuthenticated == old(isAuthenticated) && storage == old(storage)
    {
      isLoading := true;
      authError := None;
      calls := calls + [LoginCall(username, password)];
      match outcome {
        case LoggedIn(u, t) =>
          user := Some(u);
          token := Some(t);
          isAuthenticated := true;
          storage := storage[TokenKey := t][UserKey := u];
          thrown := None;
        case LoginError(message) =>
          authError := Some(ErrorText(message, LoginFailure));
          thrown := Some(message);
      }
      isLoading := false;
    }

    /** `register`: after a successful registration, logs in with the same
        credentials. Any failure, the login's included, leaves its own message
        or 'Registration failed' in the error and is rethrown. */
    method Register(username: string, password: string, registered: RegisterOutcome, loginOutcome: LoginOutcome)
      returns (thrown: Option<string>)
      requires Valid()
      modifies this`user, this`token, this`isAuthenticated, this`isLoading,
               this`authError, this`storage, this`calls
      ensures Valid()
      ensures !isLoading
      ensures registered.RegisterError? ==>
        && calls == old(calls) + [RegisterCall(username, password)]
        && thrown == Some(registered.message)
        && authError == Some(ErrorText(registered.message, RegistrationFailure))
        && user == old(user) && token == old(token)
        && isAuthenticated == old(isAuthenticated) && storage == old(storage)
      ensures registered.Registered? ==>
        calls == old(calls) + [RegisterCall(username, password), LoginCall(username, password)]
      ensures registered.Registered? && loginOutcome.LoggedIn? ==>
        && thrown == None && authError == None
        && user == Some(loginOutcome.user) && token == Some(loginOutcome.token) && isAuthenticated
        && storage == old(storage)[TokenKey := loginOutcome.token][UserKey := loginOutcome.user]
      ensures registered.Registered? && loginOutcome.LoginError? ==>
        && thrown == Some(loginOutcome.message)
        && authError == Some(ErrorText(loginOutcome.message, RegistrationFailure))
        && user == old(user) && token == old(token)
        && isAuthenticated == old(isAuthenticated) && storage == old(storage)
    {
      isLoading := true;
      authError := None;
      calls := calls + [RegisterCall(username, password)];
      match registered {
        case RegisterError(message) =>
          thrown := Some(message);
        case Registered =>
          thrown := Login(username, password, loginOutcome);
      }
      if thrown.Some? {
        authError := Some(ErrorText(thrown.value, RegistrationFailure));
      }
      isLoading := false;
    }

    /** `logout`: the session is cleared and both storage keys removed. */
    method Logout()
      modifies this`user, this`token, this`isAuthenticated, this`storage
      ensures Valid()
      ensures user == None && token == None && !isAuthenticated
      ensures storage == old(storage) - {TokenKey, UserKey}
    {
      user := None;
      token := None;
      isAuthenticated := false;
      storage := storage - {TokenKey, UserKey};
    }
  }

  /** Storage is what a reload starts from: after a login with a non-empty
      token, a freshly mounted provider counts the session as authenticated. */
  method ReloadAfterLogin(storage: map<string, string>, user: UserJson, token: string)
    returns (authenticated: bool)
    requires token != ""
    ensures authenticated
  {
    var session := new AuthProvider(storage);
    var _ := session.Login("", "", LoggedIn(user, token));
    var reloaded := new AuthProvider(session.storage);
    authenticated := reloaded.isAuthenticated;
  }

  /** After a logout, a freshly mounted provider starts unauthenticated and
      no verification can authenticate it. */
  method ReloadAfterLogout(storage: map<string, string>, userParses: bool)
    returns (authenticated: bool)
    ensures !authenticated
  {
    var session := new AuthProvider(storage);
    session.Logout();
    var reloaded := new AuthProvider(session.storage);
    reloaded.VerifyAuth(userParses);
    authenticated := reloaded.isAuthenticated;
  }
}
