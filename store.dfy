/**
 * The session-restore listener: after every dispatched action it checks
 * whether the auth state is empty while the session still says a user is
 * signed in, and if so dispatches `refreshAuthentication` once.
 *
 * `Dispatch` is one action through the reducer and then the listener; `Run`
 * is a sequence of such dispatches from a store created on page load.
 */
module Store {
  import opened AuthTypes
  import opened AuthSlice

  /**
   * The listener's predicate: no token, no user, and the session flag is
   * exactly "true". The action and the state before it are ignored.
   */
  predicate ShouldRestore(action: Action, current: AuthState, original: AuthState, session: Session): (fire: bool)
    ensures fire ==> current == InitialState() && FlagSet(session)
  {
    current.token.None? && current.user.None? && FlagSet(session)
  }

  /**
   * The listener's effect: dispatch `refreshAuthentication`. Should the
   * reducer throw, the listener middleware reports the error and the state
   * stays as it was.
   */
  function Effect(s: Snapshot): (t: Snapshot)
    ensures t.session == s.session
    ensures StoredPayload(s.session).Some? && FlagSet(s.session) ==> t.auth == StateOf(StoredPayload(s.session).value)
    ensures !(StoredPayload(s.session).Some? && FlagSet(s.session)) ==> t == s
  {
    match AfterRefresh(s)
    case Ok(restored) => restored
    case Err(_) => s
  }

  /**
   * One dispatch: the reducer, then the listener on the new state. A reducer
   * that throws hands the error to the caller and runs no listener.
   */
  function Dispatch(s: Snapshot, a: Action): (r: Result<Snapshot>)
    ensures r.Err? <==> Reduce(s, a).Err?
    ensures r.Ok? && !ShouldRestore(a, Reduce(s, a).value.auth, s.auth, Reduce(s, a).value.session) ==>
              r.value == Reduce(s, a).value
    ensures r.Ok? && ShouldRestore(a, Reduce(s, a).value.auth, s.auth, Reduce(s, a).value.session) ==>
              r.value == Effect(Reduce(s, a).value)
  {
    match Reduce(s, a)
    case Err(e) => Err(e)
    case Ok(reduced) =>
      Ok(if ShouldRestore(a, reduced.auth, s.auth, reduced.session) then Effect(reduced) else reduced)
  }

  /**
   * A dispatch seen from outside: an action whose reducer threw leaves the
   * store as it was, and only a fulfilled login or logout writes the session.
   */
  function Step(s: Snapshot, a: Action): (t: Snapshot)
    ensures Reduce(s, a).Err? ==> t == s
    ensures !a.LoginFulfilled? && !a.LogoutFulfilled? ==> t.session == s.session
  {
    match Dispatch(s, a)
    case Ok(t) => t
    case Err(_) => s
  }

  /**
   * The store after dispatching `actions` in order. The session store keeps
   * its contents through any run without a fulfilled login or logout.
   */
  function Run(s: Snapshot, actions: seq<Action>): (t: Snapshot)
    ensures (forall i :: 0 <= i < |actions| ==> !actions[i].LoginFulfilled? && !actions[i].LogoutFulfilled?) ==>
              t.session == s.session
    decreases |actions|
  {
    if actions == [] then s else Step(Run(s, actions[..|actions| - 1]), actions[|actions| - 1])
  }

  /** The predicate depends on neither the action nor the state before it. */
  lemma PredicateIgnoresActionAndOriginal(a1: Action, a2: Action, o1: AuthState, o2: AuthState,
                                          current: AuthState, session: Session)
    ensures ShouldRestore(a1, current, o1, session) == ShouldRestore(a2, current, o2, session)
  {
  }

  /**
   * In a synchronised store the listener fires exactly when the session
   * reports a login that the state does not hold.
   */
  lemma PredicateIffUnmirroredLogin(a: Action, s: Snapshot, original: AuthState)
    requires Synced(s)
    ensures ShouldRestore(a, s.auth, original, s.session) <==> s.auth.user.None? && FlagSet(s.session)
  {
  }

  /** A state holding a user or a token never triggers a restore. */
  lemma SignedInNeverRestores(a: Action, current: AuthState, original: AuthState, session: Session)
    ensures current.user.Some? || current.token.Some? ==> !ShouldRestore(a, current, original, session)
  {
  }

  /**
   * A restore that succeeds switches the predicate off: the `refreshAuthentication`
   * the effect dispatches does not set off a second restore.
   */
  lemma RestoreDisarmsListener(s: Snapshot, original: AuthState)
    requires ShouldRestore(Unrelated, s.auth, original, s.session)
    requires AfterRefresh(s).Ok?
    ensures !ShouldRestore(RefreshAuthentication, AfterRefresh(s).value.auth, s.auth, AfterRefresh(s).value.session)
  {
  }

  /**
   * A restore that throws (flag "true", but no parseable stored response)
   * changes nothing and leaves the predicate on, so every later unrelated
   * action tries, and fails, again.
   */
  lemma FailedRestoreRetries(s: Snapshot, a: Action)
    requires s.auth == InitialState() && FlagSet(s.session) && StoredPayload(s.session).None?
    requires a.Unrelated? || a.LoginRejected? || a.LogoutRejected? || a.RegisterFulfilled? || a.RegisterRejected?
    ensures Dispatch(s, a) == Ok(s)
    ensures ShouldRestore(a, s.auth, s.auth, s.session)
  {
  }

  /** Every dispatch keeps state and session in agreement. */
  lemma StepPreservesSynced(s: Snapshot, a: Action)
    requires Synced(s)
    ensures Synced(Step(s, a))
  {
  }

  /**
   * After any dispatch of a synchronised store, a session holding the flag
   * "true" and a stored response is mirrored by the state.
   */
  lemma StepRestores(s: Snapshot, a: Action)
    requires Synced(s)
    ensures var t := Step(s, a);
              FlagSet(t.session) && StoredPayload(t.session).Some? ==>
                t.auth == StateOf(StoredPayload(t.session).value)
  {
  }

  /** A store created on page load stays synchronised whatever is dispatched. */
  lemma {:induction false} RunPreservesSynced(stored: Session, actions: seq<Action>)
    ensures Synced(Run(Loaded(stored), actions))
    decreases |actions|
  {
    if actions != [] {
      RunPreservesSynced(stored, actions[..|actions| - 1]);
      StepPreservesSynced(Run(Loaded(stored), actions[..|actions| - 1]), actions[|actions| - 1]);
    }
  }

  /**
   * Once at least one action has been dispatched after a page load, a session
   * that holds a login is mirrored exactly by the auth state.
   */
  lemma {:induction false} RestoredOnceDispatched(stored: Session, actions: seq<Action>)
    requires |actions| > 0
    ensures var t := Run(Loaded(stored), actions);
              FlagSet(t.session) && StoredPayload(t.session).Some? ==>
                t.auth == StateOf(StoredPayload(t.session).value)
  {
    RunPreservesSynced(stored, actions[..|actions| - 1]);
    StepRestores(Run(Loaded(stored), actions[..|actions| - 1]), actions[|actions| - 1]);
  }

  /** A dispatch that may throw, as the listener middleware sees it: store, then listener. */
  method DispatchAction(store: AuthStore, a: Action) returns (thrown: Option<JsError>)
    modifies store
    ensures Dispatch(old(store.State()), a).Err? ==>
              thrown == Some(Dispatch(old(store.State()), a).error) && store.State() == old(store.State())
    ensures Dispatch(old(store.State()), a).Ok? ==>
              thrown.None? && store.State() == Dispatch(old(store.State()), a).value
  {
    var original := AuthState(store.user, store.token);
    thrown := store.Handle(a);
    if thrown.None? && ShouldRestore(a, AuthState(store.user, store.token), original, store.session) {
      ListenerEffect(store);
    }
  }

  /** The effect: one `refreshAuthentication`, whose error the middleware swallows. */
  method ListenerEffect(store: AuthStore)
    modifies store
    ensures store.State() == Effect(old(store.State()))
  {
    var before := AuthState(store.user, store.token);
    var thrown := store.RefreshAuthentication();
    if thrown.None? && before.user.None? && before.token.None? {
      // the dispatched refresh runs the listener again, which now stays quiet
      assert !ShouldRestore(RefreshAuthentication, AuthState(store.user, store.token), before, store.session);
    }
  }
}
