/**
 * The auth slice: the `{user, token}` state, its mirror in session storage,
 * and the three transitions that change them (a fulfilled login, a fulfilled
 * logout and `refreshAuthentication`), plus the auth API's header rule.
 *
 * The transitions are specified as functions on a `Snapshot` (auth state and
 * session store together); the class `AuthStore` holds the same data in
 * fields and updates them in place, one method per transition, each proved
 * against its function.
 */
module AuthSlice {
  import opened AuthTypes
  import Http

  /** The auth state together with the session store it is synchronised with. */
  datatype Snapshot = Snapshot(auth: AuthState, session: Session)

  /** The actions the auth reducer sees. Every other action is `Unrelated`. */
  datatype Action =
    | RefreshAuthentication
    | LoginFulfilled(payload: UserResponse)
    | LoginRejected
    | LogoutFulfilled
    | LogoutRejected
    | RegisterFulfilled
    | RegisterRejected
    | Unrelated

  /** The slice's initial state: no user and no token. */
  function InitialState(): (st: AuthState)
    ensures st.user.None? && st.token.None?
  {
    AuthState(None, None)
  }

  /** The store a page load creates: initial state, and whatever session survived. */
  function Loaded(stored: Session): (s: Snapshot)
    ensures s.auth.user.None? && s.auth.token.None? && s.session == stored
    ensures Synced(s)
  {
    Snapshot(InitialState(), stored)
  }

  /**
   * State and session agree: without a user there is no token, and with a
   * user the session holds the flag "true" and a stored login response that
   * the state was built from.
   */
  predicate Synced(s: Snapshot) {
    && (s.auth.user.None? ==> s.auth.token.None?)
    && (s.auth.user.Some? ==>
          FlagSet(s.session) && StoredPayload(s.session).Some?
          && s.auth == StateOf(StoredPayload(s.session).value))
  }

  /** A fulfilled login: state from the response, both session keys written. */
  function AfterLogin(s: Snapshot, p: UserResponse): (t: Snapshot)
    ensures t.auth.token == p.token
    ensures t.auth.user == Some(User(p.userId, p.username, p.email, p.role))
    ensures FlagSet(t.session) && StoredPayload(t.session) == Some(p)
    ensures forall k :: k != FlagKey && k != UserKey ==>
              (k in t.session <==> k in s.session) && (k in s.session ==> t.session[k] == s.session[k])
    ensures Synced(t)
  {
    Snapshot(StateOf(p), s.session[FlagKey := Text("true")][UserKey := Serialized(p)])
  }

  /** A fulfilled logout: state cleared, both session keys removed. */
  function AfterLogout(s: Snapshot): (t: Snapshot)
    ensures t.auth == InitialState()
    ensures FlagKey !in t.session && UserKey !in t.session
    ensures forall k :: k != FlagKey && k != UserKey ==>
              (k in t.session <==> k in s.session) && (k in s.session ==> t.session[k] == s.session[k])
    ensures Synced(t)
  {
    Snapshot(InitialState(), s.session - {FlagKey, UserKey})
  }

  /**
   * `refreshAuthentication`: when the flag is exactly "true", parse the
   * stored response and rebuild the state from it; parsing text that is not
   * JSON throws, and so does reading `token` from a parsed `null`.
   */
  function AfterRefresh(s: Snapshot): (r: Result<Snapshot>)
    ensures !FlagSet(s.session) ==> r == Ok(s)
    ensures r.Err? <==> FlagSet(s.session) && StoredPayload(s.session).None?
    ensures FlagSet(s.session) && StoredPayload(s.session).Some? ==>
              r == Ok(Snapshot(StateOf(StoredPayload(s.session).value), s.session))
    ensures r.Ok? ==> r.value.session == s.session
  {
    if GetItem(s.session, FlagKey) == Some(Text("true")) then
      match ParseJson(GetItem(s.session, UserKey))
      case Err(e) => Err(e)
      case Ok(None) => Err(TypeError)
      case Ok(Some(response)) => Ok(Snapshot(StateOf(response), s.session))
    else
      Ok(s)
  }

  /** The reducer: only the fulfilled login and logout and a refresh act. */
  function Reduce(s: Snapshot, a: Action): (r: Result<Snapshot>)
    ensures (a.LoginRejected? || a.LogoutRejected? || a.RegisterFulfilled? || a.RegisterRejected? || a.Unrelated?)
              ==> r == Ok(s)
    ensures r.Err? ==> a.RefreshAuthentication?
  {
    match a
    case RefreshAuthentication => AfterRefresh(s)
    case LoginFulfilled(p) => Ok(AfterLogin(s, p))
    case LogoutFulfilled => Ok(AfterLogout(s))
    case _ => Ok(s)
  }

  /** Refreshing right after a login rebuilds exactly the state the login set. */
  lemma LoginThenRefresh(s: Snapshot, p: UserResponse)
    ensures AfterRefresh(AfterLogin(s, p)) == Ok(AfterLogin(s, p))
  {
  }

  /** A refresh that succeeded changes nothing when repeated. */
  lemma RefreshIdempotent(s: Snapshot)
    ensures AfterRefresh(s).Ok? ==> AfterRefresh(AfterRefresh(s).value) == AfterRefresh(s)
  {
  }

  /** Every action the reducer accepts keeps state and session in agreement. */
  lemma ReducePreservesSynced(s: Snapshot, a: Action)
    requires Synced(s)
    ensures Reduce(s, a).Ok? ==> Synced(Reduce(s, a).value)
  {
  }

  /** The auth API's headers: a bearer header exactly when the token is truthy. */
  function AuthHeaders(entries: map<string, string>, token: Option<string>): (r: map<string, string>)
    ensures Http.Truthy(token) ==>
              Http.AuthorizationHeader in r && r[Http.AuthorizationHeader] == Http.Bearer(token.value)
    ensures !Http.Truthy(token) ==> r == entries
    ensures forall k :: k != Http.AuthorizationHeader ==>
              (k in r <==> k in entries) && (k in entries ==> r[k] == entries[k])
  {
    if Http.Truthy(token) then entries[Http.AuthorizationHeader := Http.Bearer(token.value)] else entries
  }

  /** After a logout no request of the auth API carries a bearer header. */
  lemma NoBearerAfterLogout(s: Snapshot, entries: map<string, string>)
    ensures AuthHeaders(entries, AfterLogout(s).auth.token) == entries
  {
  }

  /** The auth slice held in place, with the browser's session store beside it. */
  class AuthStore {
    var user: Option<User>
    var token: Option<string>
    var session: Session

    function State(): Snapshot
      reads this
    {
      Snapshot(AuthState(user, token), session)
    }

    /** The store on page load: initial state, whatever the session kept. */
    constructor (stored: Session)
      ensures State() == Loaded(stored)
    {
      user := None;
      token := None;
      session := stored;
    }

    method RefreshAuthentication() returns (thrown: Option<JsError>)
      modifies this
      ensures AfterRefresh(old(State())).Ok? ==> thrown.None? && State() == AfterRefresh(old(State())).value
      ensures AfterRefresh(old(State())).Err? ==>
                thrown == Some(AfterRefresh(old(State())).error) && State() == old(State())
    {
      thrown := None;
      var isAuthenticated := GetItem(session, FlagKey);
      if isAuthenticated == Some(Text("true")) {
        var userSession := GetItem(session, UserKey);
        var parsed := ParseJson(userSession);
        if parsed.Err? {
          thrown := Some(parsed.error);
          return;
        }
        if parsed.value.None? {
          thrown := Some(TypeError);
          return;
        }
        var response := parsed.value.value;
        token := response.token;
        user := Some(User(response.userId, response.username, response.email, response.role));
      }
    }

    method OnLoginFulfilled(payload: UserResponse)
      modifies this
      ensures State() == AfterLogin(old(State()), payload)
    {
      token := payload.token;
      user := Some(User(payload.userId, payload.username, payload.email, payload.role));
      session := session[FlagKey := Text("true")];
      session := session[UserKey := Serialized(payload)];
    }

    method OnLogoutFulfilled()
      modifies this
      ensures State() == AfterLogout(old(State()))
    {
      token := None;
      user := None;
      session := session - {FlagKey};
      session := session - {UserKey};
    }

    /** Runs the reducer on one action; a throwing refresh leaves everything as it was. */
    method Handle(a: Action) returns (thrown: Option<JsError>)
      modifies this
      ensures Reduce(old(State()), a).Ok? ==>
                thrown.None? && State() == Reduce(old(State()), a).value
      ensures Reduce(old(State()), a).Err? ==>
                thrown == Some(Reduce(old(State()), a).error) && State() == old(State())
    {
      thrown := None;
      match a {
        case RefreshAuthentication => thrown := RefreshAuthentication();
        case LoginFulfilled(p) => OnLoginFulfilled(p);
        case LogoutFulfilled => OnLogoutFulfilled();
        case _ =>
      }
    }

    /** The auth API's `prepareHeaders`: updates and returns the same headers object. */
    method PrepareHeaders(headers: Http.Headers) returns (r: Http.Headers)
      modifies headers
      ensures r == headers
      ensures headers.entries == AuthHeaders(old(headers.entries), token)
    {
      if Http.Truthy(token) {
        headers.Set(Http.AuthorizationHeader, Http.Bearer(token.value));
      }
      r := headers;
    }
  }
}
