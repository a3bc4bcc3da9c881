/** `AuthContext.tsx`: the client session. The provider holds `user`, `token` and `loading`, and
    mirrors the session into the browser's `localStorage` under the keys `token` and `user`.
    The network calls are inputs (their outcome), and `JSON.stringify` / `JSON.parse` are the
    provider's parameters `stringify` and `parse`; `parse` gives `None` for the text `null`. */
module AuthContext {
  import opened Results
  import opened ClientTypes

  const TOKEN_KEY := "token"
  const USER_KEY := "user"

  /** The session fields the bootstrap effect may restore. */
  datatype Session = Session(user: Option<ClientUser>, token: Option<string>)

  /** Both storage slots hold a non-empty string (an empty string is falsy). */
  predicate BothStored(storage: map<string, string>) {
    TOKEN_KEY in storage && storage[TOKEN_KEY] != "" && USER_KEY in storage && storage[USER_KEY] != ""
  }

  /** The bootstrap effect on values: with both slots filled, the token and the parsed user are
      taken; otherwise the session is left as it is. */
  function Restored(storage: map<string, string>, parse: string -> Option<ClientUser>, current: Session)
    : (s: Session)
    ensures BothStored(storage) ==> s == Session(parse(storage[USER_KEY]), Some(storage[TOKEN_KEY]))
    ensures !BothStored(storage) ==> s == current
    ensures s.token.Some? && current.token.None? ==> BothStored(storage)
    ensures s != current ==> TOKEN_KEY in storage && s.token == Some(storage[TOKEN_KEY])
  {
    if BothStored(storage) then
      Session(parse(storage[USER_KEY]), Some(storage[TOKEN_KEY]))
    else
      current
  }

  /** `isAuthenticated` on a session: `!!user`. */
  predicate Authenticated(s: Session) {
    s.user.Some?
  }

  /** Being signed in depends on the user alone: a token neither grants nor removes it. */
  lemma AuthenticatedIgnoresToken(s: Session, token: Option<string>)
    ensures Authenticated(s.(token := token)) == Authenticated(s)
    ensures Authenticated(Session(None, token)) == false
  {
  }

  /** A stored user that is the text `null` is truthy, so the bootstrap takes the token, yet the
      user it parses is null: the session then holds a token without being signed in. */
  lemma NullStoredUserNotAuthenticated(storage: map<string, string>, parse: string -> Option<ClientUser>,
                                       current: Session)
    requires BothStored(storage) && parse(storage[USER_KEY]).None?
    ensures Restored(storage, parse, current) == Session(None, Some(storage[TOKEN_KEY]))
    ensures !Authenticated(Restored(storage, parse, current))
  {
  }

  /** The user a login keeps: id, username, email and names from the response; the role is not copied. */
  function UserData(response: JwtResponse): (u: ClientUser)
    ensures u.id == response.id && u.username == response.username && u.email == response.email
    ensures u.firstName == response.firstName && u.lastName == response.lastName
    ensures u.role.None?
  {
    ClientUser(response.id, response.username, response.email, response.firstName, response.lastName, None)
  }

  /** The storage after a successful login: the token, then the serialised user. */
  function LoginStorage(storage: map<string, string>, response: JwtResponse, stringify: ClientUser -> string)
    : (s: map<string, string>)
    ensures s.Keys == storage.Keys + {TOKEN_KEY, USER_KEY}
    ensures s[TOKEN_KEY] == response.token && s[USER_KEY] == stringify(UserData(response))
    ensures forall k :: k in storage && k != TOKEN_KEY && k != USER_KEY ==> s[k] == storage[k]
  {
    storage[TOKEN_KEY := response.token][USER_KEY := stringify(UserData(response))]
  }

  /** The storage after logout: both slots removed, every other key kept. */
  function LogoutStorage(storage: map<string, string>): (s: map<string, string>)
    ensures TOKEN_KEY !in s && USER_KEY !in s
    ensures forall k :: k in storage && k != TOKEN_KEY && k != USER_KEY ==> k in s && s[k] == storage[k]
    ensures forall k :: k in s ==> k in storage
  {
    storage - {TOKEN_KEY, USER_KEY}
  }

  /** A login followed by a reload restores the same token and user, provided the serialised
      user parses back to itself and the token is not empty (an empty token is not restored). */
  lemma LoginThenBootstrap(storage: map<string, string>, response: JwtResponse,
                           stringify: ClientUser -> string, parse: string -> Option<ClientUser>, current: Session)
    requires parse(stringify(UserData(response))) == Some(UserData(response))
    requires response.token != "" && stringify(UserData(response)) != ""
    ensures Restored(LoginStorage(storage, response, stringify), parse, current)
         == Session(Some(UserData(response)), Some(response.token))
  {
    var s := LoginStorage(storage, response, stringify);
    assert s[TOKEN_KEY] == response.token && s[USER_KEY] == stringify(UserData(response));
  }

  /** An empty token is written by login but not restored by the next bootstrap. */
  lemma EmptyTokenNotRestored(storage: map<string, string>, response: JwtResponse,
                              stringify: ClientUser -> string, parse: string -> Option<ClientUser>, current: Session)
    requires response.token == ""
    ensures Restored(LoginStorage(storage, response, stringify), parse, current) == current
  {
    var s := LoginStorage(storage, response, stringify);
    assert s[TOKEN_KEY] == "";
  }

  /** After logout a reload restores nothing, and logging out twice leaves the same storage. */
  lemma LogoutThenBootstrap(storage: map<string, string>, parse: string -> Option<ClientUser>, current: Session)
    ensures Restored(LogoutStorage(storage), parse, current) == current
    ensures LogoutStorage(LogoutStorage(storage)) == LogoutStorage(storage)
  {
    assert TOKEN_KEY !in LogoutStorage(storage);
    assert LogoutStorage(LogoutStorage(storage)) == LogoutStorage(storage);
  }

  /** The provider's state. */
  class AuthProvider {
    var user: Option<ClientUser>
    var token: Option<string>
    var loading: bool
    /** The browser's `localStorage`. */
    var storage: map<string, string>
    const stringify: ClientUser -> string
    const parse: string -> Option<ClientUser>

    /** Mounting: no session yet, still loading; the storage is whatever the browser holds. */
    constructor (storage: map<string, string>, stringify: ClientUser -> string, parse: string -> Option<ClientUser>)
      ensures user == None && token == None && loading
      ensures this.storage == storage && this.stringify == stringify && this.parse == parse
    {
      user, token, loading := None, None, true;
      this.storage := storage;
      this.stringify, this.parse := stringify, parse;
    }

    /** `isAuthenticated`: a user is present, whatever the token. */
    predicate IsAuthenticated()
      reads this
    {
      Authenticated(Session(user, token))
    }

    /** The bootstrap effect: reads both slots, restores the session when both are non-empty,
        and stops loading either way. */
    method Bootstrap()
      modifies this
      ensures Session(user, token) == Restored(old(storage), parse, old(Session(user, token)))
      ensures !loading && storage == old(storage)
    {
      var storedToken := if TOKEN_KEY in storage then storage[TOKEN_KEY] else "";
      var storedUser := if USER_KEY in storage then storage[USER_KEY] else "";
      if storedToken != "" && storedUser != "" {
        token := Some(storedToken);
        user := parse(storedUser);
      }
      loading := false;
    }

    /** `login`, given what `authAPI.login` answered: a failure is rethrown and changes nothing;
        a success sets token and user and writes both storage slots. */
    method Login(response: ApiResult<JwtResponse>) returns (r: Outcome<ApiError>)
      modifies this
      ensures response.Err? ==>
        r == Fail(response.error) && user == old(user) && token == old(token) && storage == old(storage)
      ensures response.Ok? ==>
        && r == Pass
        && user == Some(UserData(response.value)) && token == Some(response.value.token)
        && storage == LoginStorage(old(storage), response.value, stringify)
      ensures loading == old(loading)
    {
      if response.Err? {
        return Fail(response.error);
      }
      var jwt := response.value;
      var userData := ClientUser(jwt.id, jwt.username, jwt.email, jwt.firstName, jwt.lastName, None);
      token := Some(jwt.token);
      user := Some(userData);
      storage := storage[TOKEN_KEY := jwt.token];
      storage := storage[USER_KEY := stringify(userData)];
      r := Pass;
    }

    /** `register`, given what `authAPI.register` answered: the outcome is passed on and the
        session is not touched. */
    method Register(response: Outcome<ApiError>) returns (r: Outcome<ApiError>)
      ensures r == response
    {
      r := response;
    }

    /** `logout`: no user, no token, both storage slots removed. */
    method Logout()
      modifies this
      ensures user == None && token == None && !IsAuthenticated()
      ensures storage == LogoutStorage(old(storage))
      ensures loading == old(loading)
    {
      user := None;
      token := None;
      storage := storage - {TOKEN_KEY};
      storage := storage - {USER_KEY};
    }
  }
}
