/** The `auth` slice of the Redux store: the signed-in user, the bearer token and the
    authenticated flag, kept in step with the browser's localStorage. */
module AuthStore {
  import opened Wrappers
  import opened JsText
  import opened JsonText

  datatype User = User(id: string, name: string, email: string, role: string)

  datatype AuthState = AuthState(user: Option<User>, token: Option<string>, isAuthenticated: bool)

  const TokenKey := "token"
  const UserKey := "user"

  /** The slice's invariant: the session is never marked authenticated without a token. */
  predicate Valid(s: AuthState) {
    s.isAuthenticated ==> s.token.Some?
  }

  // ---------------------------------------------------------------- the stored user

  function UserFields(u: User): seq<(string, string)> {
    [("id", u.id), ("name", u.name), ("email", u.email), ("role", u.role)]
  }

  /** `JSON.stringify(user)`. */
  function StringifyUser(u: User): string {
    StringifyObject(UserFields(u))
  }

  /** `JSON.parse(text)` read as a user: the object with the four user fields, in the order
      `JSON.stringify` writes them. */
  function ParseUser(text: string): Option<User> {
    match ParseObject(text)
    case Some(fs) =>
      if |fs| == 4 && fs[0].0 == "id" && fs[1].0 == "name" && fs[2].0 == "email" && fs[3].0 == "role"
      then Some(User(fs[0].1, fs[1].1, fs[2].1, fs[3].1))
      else None
    case None => None
  }

  /** The stored user text reads back as the user that was stored. */
  lemma UserRoundTrip(u: User)
    ensures ParseUser(StringifyUser(u)) == Some(u)
    ensures Truthy(StringifyUser(u))
  {
    StringifyParseRoundTrip(UserFields(u));
    assert StringifyUser(u)[0] == '{';
  }

  /** `localStorage.getItem(key)`: null (None) when nothing is stored. */
  function GetItem(items: map<string, string>, key: string): (r: Option<string>)
    ensures r.Some? <==> key in items
    ensures r.Some? ==> r.value == items[key]
  {
    if key in items then Some(items[key]) else None
  }

  // ---------------------------------------------------------------- the reducers, as functions

  /** The initial state: no user, and the stored token (when there is a window), the session
      being authenticated exactly when that token is non-empty. */
  function InitialState(browser: bool, items: map<string, string>): (s: AuthState)
    ensures Valid(s) && s.user.None?
    ensures s.isAuthenticated <==> browser && TokenKey in items && items[TokenKey] != ""
    ensures s.token == (if browser then GetItem(items, TokenKey) else None)
  {
    var token := if browser then GetItem(items, TokenKey) else None;
    AuthState(None, token, token.Some? && Truthy(token.value))
  }

  function AfterSetCredentials(u: User, token: string): (s: AuthState)
    ensures Valid(s) && s.isAuthenticated && s.user == Some(u) && s.token == Some(token)
  {
    AuthState(Some(u), Some(token), true)
  }

  /** The storage after `setCredentials`: the token and the serialized user. */
  function StoredCredentials(items: map<string, string>, u: User, token: string): (r: map<string, string>)
    ensures GetItem(r, TokenKey) == Some(token)
    ensures UserKey in r && ParseUser(r[UserKey]) == Some(u)
    ensures forall k :: k != TokenKey && k != UserKey ==> GetItem(r, k) == GetItem(items, k)
  {
    UserRoundTrip(u);
    items[TokenKey := token][UserKey := StringifyUser(u)]
  }

  function AfterLogout(): (s: AuthState)
    ensures Valid(s) && !s.isAuthenticated && s.user.None? && s.token.None?
  {
    AuthState(None, None, false)
  }

  /** The storage after `logout`: both keys removed, all others kept. */
  function StoredAfterLogout(items: map<string, string>): (r: map<string, string>)
    ensures TokenKey !in r && UserKey !in r
    ensures forall k :: k != TokenKey && k != UserKey ==> GetItem(r, k) == GetItem(items, k)
  {
    items - {TokenKey, UserKey}
  }

  /** `loadUserFromStorage`: the session is restored from a stored token and user when both
      are non-empty; otherwise the state stays as it was. A stored user that does not parse
      makes `JSON.parse` throw, which leaves the state as it was too. */
  function AfterLoad(s: AuthState, browser: bool, items: map<string, string>): (r: AuthState)
    ensures Valid(s) ==> Valid(r)
    ensures r != s ==> browser && TokenKey in items && UserKey in items
                       && Truthy(items[TokenKey]) && Truthy(items[UserKey])
    ensures r != s ==> r.isAuthenticated && r.token == Some(items[TokenKey])
                       && r.user.Some? && ParseUser(items[UserKey]) == r.user
    ensures browser && TokenKey in items && UserKey in items
            && Truthy(items[TokenKey]) && Truthy(items[UserKey]) && ParseUser(items[UserKey]).Some? ==>
              r == AuthState(ParseUser(items[UserKey]), Some(items[TokenKey]), true)
  {
    if !browser then s
    else
      var token := GetItem(items, TokenKey);
      var user := GetItem(items, UserKey);
      if token.Some? && Truthy(token.value) && user.Some? && Truthy(user.value) then
        match ParseUser(user.value)
        case Some(u) => AuthState(Some(u), token, true)
        case None => s
      else s
  }

  // ---------------------------------------------------------------- properties of the session

  /** Logging out twice is logging out once, in the state and in storage. */
  lemma LogoutIdempotent(items: map<string, string>)
    ensures StoredAfterLogout(StoredAfterLogout(items)) == StoredAfterLogout(items)
  {
  }

  /** After a logout nothing is stored, so loading from storage changes nothing. */
  lemma LoadAfterLogoutChangesNothing(s: AuthState, browser: bool, items: map<string, string>)
    ensures AfterLoad(s, browser, StoredAfterLogout(items)) == s
  {
  }

  /** A page reload after signing in with a non-empty token: the new store starts
      authenticated with the stored token, and loading from storage brings back the user, so
      the session is exactly the one `setCredentials` made. */
  lemma SessionSurvivesReload(items: map<string, string>, u: User, token: string)
    requires token != ""
    ensures InitialState(true, StoredCredentials(items, u, token)).isAuthenticated
    ensures AfterLoad(InitialState(true, StoredCredentials(items, u, token)), true, StoredCredentials(items, u, token))
            == AfterSetCredentials(u, token)
  {
    var stored := StoredCredentials(items, u, token);
    UserRoundTrip(u);
    assert stored[UserKey] == StringifyUser(u);
  }

  // ---------------------------------------------------------------- the slice, in place

  /** The browser's localStorage. */
  class LocalStorage {
    var items: map<string, string>

    constructor (init: map<string, string>)
      ensures items == init
    {
      items := init;
    }

    method SetItem(key: string, value: string)
      modifies this
      ensures items == old(items)[key := value]
    {
      items := items[key := value];
    }

    method RemoveItem(key: string)
      modifies this
      ensures items == old(items) - {key}
    {
      items := items - {key};
    }
  }

  /** The slice's state, updated in place by its reducers. `browser` records whether a window
      exists (`typeof window !== 'undefined'`); without one, storage is never touched. */
  class AuthSlice {
    var user: Option<User>
    var token: Option<string>
    var isAuthenticated: bool
    const browser: bool
    const storage: LocalStorage

    function State(): AuthState
      reads this
    {
      AuthState(user, token, isAuthenticated)
    }

    constructor (browser: bool, storage: LocalStorage)
      ensures this.browser == browser && this.storage == storage
      ensures State() == InitialState(browser, storage.items)
    {
      this.browser := browser;
      this.storage := storage;
      user := None;
      token := if browser then GetItem(storage.items, TokenKey) else None;
      isAuthenticated := browser && GetItem(storage.items, TokenKey).Some? && Truthy(GetItem(storage.items, TokenKey).value);
    }

    method SetCredentials(u: User, newToken: string)
      modifies this, storage
      ensures State() == AfterSetCredentials(u, newToken)
      ensures storage.items == if browser then StoredCredentials(old(storage.items), u, newToken) else old(storage.items)
    {
      user := Some(u);
      token := Some(newToken);
      isAuthenticated := true;
      if browser {
        storage.SetItem(TokenKey, newToken);
        storage.SetItem(UserKey, StringifyUser(u));
      }
    }

    method Logout()
      modifies this, storage
      ensures State() == AfterLogout()
      ensures storage.items == if browser then StoredAfterLogout(old(storage.items)) else old(storage.items)
    {
      user := None;
      token := None;
      isAuthenticated := false;
      if browser {
        storage.RemoveItem(TokenKey);
        storage.RemoveItem(UserKey);
        assert storage.items == old(storage.items) - {TokenKey, UserKey};
      }
    }

    method LoadUserFromStorage()
      modifies this
      ensures State() == AfterLoad(old(State()), browser, storage.items)
    {
      if browser {
        var storedToken := GetItem(storage.items, TokenKey);
        var storedUser := GetItem(storage.items, UserKey);
        if storedToken.Some? && Truthy(storedToken.value) && storedUser.Some? && Truthy(storedUser.value) {
          var parsed := ParseUser(storedUser.value);
          if parsed.Some? {
            token := storedToken;
            user := parsed;
            isAuthenticated := true;
          }
        }
      }
    }
  }
}
