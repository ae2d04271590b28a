/** The session held by `AuthService`: the access token, the refresh token, the
    current user and the authenticated flag, mirrored to `localStorage` under
    the keys `token`, `refreshToken` and `currentUser`.

    The network exchanges (POST `/autenticacao/login`, PUT
    `/autenticacao/refresh`) are not performed here: their answers are
    parameters of the methods that consume them. */
module AuthSession {
  import opened Common

  /** The one field of `User` that the service writes and reads back. */
  datatype User = User(username: string)

  /** The body of a successful login or refresh answer. */
  datatype AuthResponse = AuthResponse(
    accessToken: string,
    refreshToken: string,
    expiresIn: int,
    refreshExpiresIn: int)

  /** The body of the refresh call: `{ refreshToken }`. */
  datatype RefreshRequest = RefreshRequest(refreshToken: string)

  const TokenKey := "token"
  const RefreshTokenKey := "refreshToken"
  const UserKey := "currentUser"

  /** The identity every successful login or refresh installs. */
  const PlaceholderUser := User("user")

  const NoRefreshTokenMessage := "No refresh token available"

  /** `localStorage` as the service sees it. `Unavailable` stands for a context
      without `window` and for a storage whose reads throw: reads then give
      `null` and writes are skipped. */
  datatype Store = Unavailable | Local(items: map<string, string>)

  /** `localStorage.getItem(key)`, with a failed read giving `null`. */
  function GetItem(store: Store, key: string): Option<string> {
    match store
    case Unavailable => None
    case Local(items) => if key in items then Some(items[key]) else None
  }

  // ---------------------------------------------------------------------------
  // The stored form of a user

  /** A character `JSON.stringify` writes as itself inside a string. */
  predicate IsPlainJsonChar(c: char) {
    c != '"' && c != '\\' && c >= ' '
  }

  predicate IsPlainJsonText(s: string) {
    forall i :: 0 <= i < |s| ==> IsPlainJsonChar(s[i])
  }

  const UserJsonPrefix := "{\"username\":\""
  const UserJsonSuffix := "\"}"

  /** `JSON.stringify(user)` for a user whose name needs no escaping. */
  function UserJson(u: User): string {
    UserJsonPrefix + u.username + UserJsonSuffix
  }

  /** `JSON.parse(text)` read as a user; text of any other shape, including
      malformed JSON (which makes `JSON.parse` throw), gives `null`. */
  function ParseUser(text: string): (u: Option<User>)
    ensures u.Some? ==> IsPlainJsonText(u.value.username) && UserJson(u.value) == text
  {
    var p, q := |UserJsonPrefix|, |UserJsonSuffix|;
    if |text| >= p + q && text[..p] == UserJsonPrefix && text[|text| - q..] == UserJsonSuffix
       && IsPlainJsonText(text[p..|text| - q])
    then
      assert text == text[..p] + text[p..|text| - q] + text[|text| - q..];
      Some(User(text[p..|text| - q]))
    else None
  }

  /** Reading back what was stored gives the stored user. */
  lemma ParseUserJson(u: User)
    requires IsPlainJsonText(u.username)
    ensures ParseUser(UserJson(u)) == Some(u)
  {
    var text := UserJson(u);
    var p, q := |UserJsonPrefix|, |UserJsonSuffix|;
    assert text[..p] == UserJsonPrefix;
    assert text[|text| - q..] == UserJsonSuffix;
    assert text[p..|text| - q] == u.username;
  }

  // ---------------------------------------------------------------------------
  // The session as a value

  datatype AuthState = AuthState(
    token: Option<string>,
    refreshToken: Option<string>,
    currentUser: Option<User>,
    isAuthenticated: bool)

  const SignedOut := AuthState(None, None, None, false)

  /** The flag agrees with `!!token`. */
  predicate Consistent(st: AuthState) {
    st.isAuthenticated == Truthy(st.token)
  }

  /** `getUserFromStorage`: an absent or empty entry, or one that does not
      parse, gives `null`. */
  function UserFromStorage(store: Store): Option<User> {
    var text := GetItem(store, UserKey);
    if Truthy(text) then ParseUser(text.value) else None
  }

  /** The session read from storage: the initial signal values, and what the
      `storage` listener installs. */
  function Restore(store: Store): (st: AuthState)
    ensures Consistent(st)
    ensures store.Unavailable? ==> st == SignedOut
  {
    var token := GetItem(store, TokenKey);
    AuthState(token, GetItem(store, RefreshTokenKey), UserFromStorage(store), Truthy(token))
  }

  /** The session `handleAuthResponse` installs. */
  function SignedIn(resp: AuthResponse): AuthState {
    AuthState(Some(resp.accessToken), Some(resp.refreshToken), Some(PlaceholderUser), true)
  }

  /** The three `setItem` calls of `handleAuthResponse`. */
  function Persist(store: Store, resp: AuthResponse): Store {
    match store
    case Unavailable => Unavailable
    case Local(items) =>
      Local(items[TokenKey := resp.accessToken][RefreshTokenKey := resp.refreshToken]
                 [UserKey := UserJson(PlaceholderUser)])
  }

  /** The three `removeItem` calls of `logout`. */
  function Erase(store: Store): Store {
    match store
    case Unavailable => Unavailable
    case Local(items) => Local(items - {UserKey, TokenKey, RefreshTokenKey})
  }

  /** The flag set by `handleAuthResponse` agrees with `!!token` exactly when
      the access token received is not empty. */
  lemma SignedInConsistent(resp: AuthResponse)
    ensures Consistent(SignedIn(resp)) <==> resp.accessToken != ""
  {
  }

  /** Persisting a response and restoring from storage (a reload, or another
      tab's listener) gives the session that was installed, except that the
      restored flag is recomputed as `!!token`. */
  lemma RestoreAfterPersist(store: Store, resp: AuthResponse)
    requires store.Local?
    ensures Restore(Persist(store, resp)) == SignedIn(resp).(isAuthenticated := resp.accessToken != "")
    ensures resp.accessToken != "" ==> Restore(Persist(store, resp)) == SignedIn(resp)
  {
    ParseUserJson(PlaceholderUser);
    assert UserFromStorage(Persist(store, resp)) == Some(PlaceholderUser);
  }

  /** After the keys are removed, restoring gives the signed-out session. */
  lemma RestoreAfterErase(store: Store)
    ensures Restore(Erase(store)) == SignedOut
  {
  }

  /** Removing the keys twice is removing them once, and removing them after a
      login leaves the rest of storage as it was before the login. */
  lemma EraseIdempotent(store: Store, resp: AuthResponse)
    ensures Erase(Erase(store)) == Erase(store)
    ensures Erase(Persist(store, resp)) == Erase(store)
  {
    if store.Local? {
      var keys := {UserKey, TokenKey, RefreshTokenKey};
      var after := Persist(store, resp).items - keys;
      assert after == store.items - keys by {
        assert after.Keys == (store.items - keys).Keys;
      }
    }
  }

  // ---------------------------------------------------------------------------
  // The service

  class AuthService {
    var token: Option<string>
    var refreshToken: Option<string>
    var currentUser: Option<User>
    var isAuthenticated: bool
    var store: Store

    function State(): AuthState
      reads this
    {
      AuthState(token, refreshToken, currentUser, isAuthenticated)
    }

    /** The signals start from storage: `isAuthenticated = !!token`. */
    constructor (store: Store)
      ensures State() == Restore(store)
      ensures this.store == store
    {
      this.store := store;
      token := GetItem(store, TokenKey);
      refreshToken := GetItem(store, RefreshTokenKey);
      currentUser := UserFromStorage(store);
      isAuthenticated := Truthy(GetItem(store, TokenKey));
    }

    function GetToken(): Option<string>
      reads this
    {
      token
    }

    function GetRefreshToken(): Option<string>
      reads this
    {
      refreshToken
    }

    /** Installs a login or refresh answer and writes it to storage; right
        after it, the getters return exactly what was stored. */
    method HandleAuthResponse(resp: AuthResponse)
      modifies this
      ensures State() == SignedIn(resp)
      ensures store == Persist(old(store), resp)
      ensures GetToken() == Some(resp.accessToken) && GetRefreshToken() == Some(resp.refreshToken)
      ensures store.Local? ==>
        GetItem(store, TokenKey) == GetToken() && GetItem(store, RefreshTokenKey) == GetRefreshToken()
        && UserFromStorage(store) == currentUser
    {
      token := Some(resp.accessToken);
      refreshToken := Some(resp.refreshToken);
      currentUser := Some(PlaceholderUser);
      isAuthenticated := true;
      store := Persist(store, resp);
      ParseUserJson(PlaceholderUser);
    }

    /** Clears the session and removes the three keys; a second call changes
        nothing more. */
    method Logout()
      modifies this
      ensures State() == SignedOut
      ensures store == Erase(old(store))
      ensures GetToken() == None && GetRefreshToken() == None
      ensures GetItem(store, TokenKey) == None && GetItem(store, RefreshTokenKey) == None
      ensures GetItem(store, UserKey) == None
    {
      currentUser := None;
      token := None;
      refreshToken := None;
      isAuthenticated := false;
      store := Erase(store);
    }

    /** `login`: `outcome` is the server's answer to the credentials. A success
        is installed and returned; a failure is re-raised unchanged and leaves
        the session and storage untouched. */
    method Login(outcome: Result<AuthResponse, Failure>) returns (r: Result<AuthResponse, Failure>)
      modifies this
      ensures r == outcome
      ensures outcome.Ok? ==> State() == SignedIn(outcome.value) && store == Persist(old(store), outcome.value)
      ensures outcome.Err? ==> State() == old(State()) && store == old(store)
    {
      r := outcome;
      match outcome
      case Ok(resp) =>
        HandleAuthResponse(resp);
      case Err(_) =>
    }

    /** The synchronous start of `refreshToken()`: without a (non-empty)
        refresh token it fails at once; otherwise it is the body of the call. */
    function StartRefresh(): (r: Result<RefreshRequest, Failure>)
      reads this
      ensures r.Err? <==> !Truthy(refreshToken)
      ensures r.Ok? ==> Some(r.value.refreshToken) == refreshToken
    {
      if !Truthy(refreshToken) then Err(Thrown(NoRefreshTokenMessage))
      else Ok(RefreshRequest(refreshToken.value))
    }

    /** The `tap`/`catchError` stages of `refreshToken()` applied to the answer
        of the refresh call: a success is installed like a login; a failure
        logs out and is re-raised unchanged. */
    method CompleteRefresh(outcome: Result<AuthResponse, Failure>) returns (r: Result<AuthResponse, Failure>)
      modifies this
      ensures r == outcome
      ensures outcome.Ok? ==> State() == SignedIn(outcome.value) && store == Persist(old(store), outcome.value)
      ensures outcome.Err? ==> State() == SignedOut && store == Erase(old(store))
    {
      r := outcome;
      match outcome
      case Ok(resp) =>
        HandleAuthResponse(resp);
      case Err(_) =>
        Logout();
    }

    /** `refreshToken()` as a whole. `call` is the refresh request issued, if
        any; `outcome` is the server's answer and is only consulted when a call
        was issued. */
    method RefreshToken(outcome: Result<AuthResponse, Failure>)
      returns (call: Option<RefreshRequest>, r: Result<AuthResponse, Failure>)
      modifies this
      ensures call.None? <==> !Truthy(old(refreshToken))
      ensures call.None? ==>
        r == Err(Thrown(NoRefreshTokenMessage)) && State() == old(State()) && store == old(store)
      ensures call.Some? ==> call.value.refreshToken == old(refreshToken).value && r == outcome
      ensures call.Some? && outcome.Ok? ==>
        State() == SignedIn(outcome.value) && store == Persist(old(store), outcome.value)
      ensures call.Some? && outcome.Err? ==> State() == SignedOut && store == Erase(old(store))
    {
      var start := StartRefresh();
      match start
      case Err(e) =>
        call, r := None, Err(e);
      case Ok(body) =>
        call := Some(body);
        r := CompleteRefresh(outcome);
    }

    /** The `storage` listener: another context changed the shared storage to
        `shared`; all three keys are read again and `isAuthenticated` becomes
        `!!token`. */
    method OnStorageChange(shared: Store)
      modifies this
      ensures State() == Restore(shared)
      ensures store == shared
    {
      store := shared;
      var t := GetItem(store, TokenKey);
      var rt := GetItem(store, RefreshTokenKey);
      var user := UserFromStorage(store);
      token := t;
      refreshToken := rt;
      currentUser := user;
      isAuthenticated := Truthy(t);
    }
  }

  /** Two tabs share one storage: a logout in the first, followed by the storage
      notification in the second, leaves the second signed out. */
  method TwoTabLogout(shared: Store, resp: AuthResponse) returns (secondAuthenticated: bool)
    requires shared.Local?
    ensures !secondAuthenticated
  {
    var first := new AuthService(shared);
    var second := new AuthService(shared);
    first.HandleAuthResponse(resp);
    second.OnStorageChange(first.store);
    first.Logout();
    second.OnStorageChange(first.store);
    RestoreAfterErase(Persist(shared, resp));
    secondAuthenticated := second.isAuthenticated;
  }

  /** Two tabs share one storage: a login in the first with a non-empty token,
      followed by the notification in the second, signs the second in with the
      same tokens. */
  method TwoTabLogin(shared: Store, resp: AuthResponse) returns (second: AuthService)
    requires shared.Local? && resp.accessToken != ""
    ensures second.State() == SignedIn(resp)
  {
    var first := new AuthService(shared);
    second := new AuthService(shared);
    first.HandleAuthResponse(resp);
    second.OnStorageChange(first.store);
    RestoreAfterPersist(shared, resp);
  }
}
