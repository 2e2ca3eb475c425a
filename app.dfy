/**
 * The app shell's view of authentication: the `authState` and
 * `isAuthenticated` it hands to every page, derived from the store's auth
 * state and a direct read of the session store.
 */
module App {
  import opened AuthTypes
  import opened AuthSlice
  import Store

  /** JavaScript's `a ?? b` on nullable values. */
  function Coalesce<T>(a: Option<T>, b: Option<T>): (r: Option<T>)
    ensures a.Some? ==> r == a
    ensures a.None? ==> r == b
  {
    if a.Some? then a else b
  }

  /**
   * `userSession ? JSON.parse(userSession) : null`: an absent or empty item
   * is `null` without parsing; other text must parse.
   */
  function ReadSessionUser(session: Session): (r: Result<Option<UserResponse>>)
    ensures r.Err? <==> UserKey in session && session[UserKey].Text?
                        && session[UserKey].text != "" && !IsJsonNull(session[UserKey].text)
    ensures r.Ok? ==> r.value == StoredPayload(session)
  {
    var userSession := GetItem(session, UserKey);
    if userSession.None? || userSession == Some(Text("")) then Ok(None) else ParseJson(userSession)
  }

  /**
   * The derivation: when the flag is "true" and a response is stored, the
   * user comes from the stored response and the token from it unless it is
   * null, else from the store; otherwise the store's state as it is.
   * Reading malformed stored text throws, whatever the flag says.
   */
  function DeriveAuthState(st: AuthState, session: Session): (r: Result<(AuthState, bool)>)
    ensures r.Err? <==> UserKey in session && session[UserKey].Text?
                        && session[UserKey].text != "" && !IsJsonNull(session[UserKey].text)
    ensures r.Ok? ==> (r.value.1 <==> r.value.0.user.Some? && r.value.0.token.Some?)
    ensures FlagSet(session) && StoredPayload(session).Some? ==>
              var p := StoredPayload(session).value;
              && r.Ok?
              && r.value.0.user == Some(User(p.userId, p.username, p.email, p.role))
              && r.value.0.token == (if p.token.Some? then p.token else st.token)
    ensures r.Ok? && !(FlagSet(session) && StoredPayload(session).Some?) ==> r.value.0 == st
  {
    match ReadSessionUser(session)
    case Err(e) => Err(e)
    case Ok(response) =>
      var authState :=
        if FlagSet(session) && response.Some? then
          AuthState(
            Coalesce(Some(User(response.value.userId, response.value.username,
                               response.value.email, response.value.role)), st.user),
            Coalesce(response.value.token, st.token))
        else
          AuthState(st.user, st.token);
      Ok((authState, authState.user.Some? && authState.token.Some?))
  }

  /**
   * In a synchronised store the shell shows exactly what the listener
   * settles on: the state restored from the session when the listener would
   * restore it, the store's own state otherwise.
   */
  lemma ShellAnticipatesListener(s: Snapshot, a: Action)
    requires Synced(s)
    ensures var settled := if Store.ShouldRestore(a, s.auth, s.auth, s.session) then Store.Effect(s) else s;
              DeriveAuthState(s.auth, s.session).Ok? ==>
                DeriveAuthState(s.auth, s.session).value.0 == settled.auth
  {
  }

  /**
   * Once an action has been dispatched after a page load, the shell's state is
   * the store's own, and `isAuthenticated` says whether it has both user and token.
   */
  lemma {:induction false} ShellMatchesStoreOnceDispatched(stored: Session, actions: seq<Action>)
    requires |actions| > 0
    ensures var t := Store.Run(Loaded(stored), actions);
              DeriveAuthState(t.auth, t.session).Ok? ==>
                DeriveAuthState(t.auth, t.session).value == (t.auth, t.auth.user.Some? && t.auth.token.Some?)
  {
    var t := Store.Run(Loaded(stored), actions);
    Store.RestoredOnceDispatched(stored, actions);
    var r := DeriveAuthState(t.auth, t.session);
    if r.Ok? && FlagSet(t.session) && StoredPayload(t.session).Some? {
      assert r.value.0 == StateOf(StoredPayload(t.session).value);
    }
  }
}
