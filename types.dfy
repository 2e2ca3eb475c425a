/**
 * Values shared by the authentication slice, the listener and the app shell:
 * the user record, the login response, the `{user, token}` auth state and the
 * browser's string-keyed session store.
 */
module AuthTypes {

  /** A JavaScript value that may be `null`. */
  datatype Option<T> = None | Some(value: T)

  /** The exceptions the modelled code can throw. */
  datatype JsError =
    | SyntaxError  // JSON.parse given text that is not JSON
    | TypeError    // a property read on `null`

  /** The outcome of code that may throw. */
  datatype Result<T> = Ok(value: T) | Err(error: JsError)

  /** A signed-in user as the auth state holds it. */
  datatype User = User(id: int, username: string, email: string, role: string)

  /** The body of a successful login response; `token` may be `null`. */
  datatype UserResponse = UserResponse(
    token: Option<string>, userId: int, username: string, email: string, role: string)

  /** The auth slice's state: authenticated when both fields are present. */
  datatype AuthState = AuthState(user: Option<User>, token: Option<string>)

  /**
   * A value held by the session store. `Serialized(p)` is any text that
   * JSON.parse reads as the login response `p` (in particular the text
   * JSON.stringify writes for `p`); `Text(s)` is any other text.
   */
  datatype SessionValue = Text(text: string) | Serialized(payload: UserResponse)

  /** The browser's session storage: string keys to stored values. */
  type Session = map<string, SessionValue>

  const FlagKey: string := "isAuthenticated"
  const UserKey: string := "user"

  /** `sessionStorage.getItem(key)`: `null` when the key is absent. */
  function GetItem(session: Session, key: string): (r: Option<SessionValue>)
    ensures r.Some? <==> key in session
    ensures r.Some? ==> r.value == session[key]
  {
    if key in session then Some(session[key]) else None
  }

  /** `sessionStorage.getItem("isAuthenticated") === "true"`. */
  predicate FlagSet(session: Session) {
    GetItem(session, FlagKey) == Some(Text("true"))
  }

  /** The four characters JSON allows around a value. */
  predicate IsJsonSpace(c: char) {
    c == ' ' || c == '\t' || c == '\n' || c == '\r'
  }

  /** `s` without its leading and trailing JSON whitespace. */
  function TrimJsonSpace(s: string): (t: string)
    ensures |t| <= |s|
    ensures |t| > 0 ==> !IsJsonSpace(t[0]) && !IsJsonSpace(t[|t| - 1])
    decreases |s|
  {
    if |s| > 0 && IsJsonSpace(s[0]) then TrimJsonSpace(s[1..])
    else if |s| > 0 && IsJsonSpace(s[|s| - 1]) then TrimJsonSpace(s[..|s| - 1])
    else s
  }

  /** Text that JSON.parse reads as `null`: the literal, with any JSON whitespace around it. */
  predicate IsJsonNull(s: string) {
    TrimJsonSpace(s) == "null"
  }

  /**
   * `JSON.parse` of a session item, read as a login response. An absent
   * item is the value `null`, which JSON.parse turns into the text "null"
   * and so parses to `null`.
   */
  function ParseJson(item: Option<SessionValue>): (r: Result<Option<UserResponse>>)
    ensures r == Ok(None) <==> item.None? || (item.value.Text? && IsJsonNull(item.value.text))
    ensures r.Err? <==> item.Some? && item.value.Text? && !IsJsonNull(item.value.text)
    ensures item.Some? && item.value.Serialized? ==> r == Ok(Some(item.value.payload))
  {
    match item
    case None => Ok(None)
    case Some(Serialized(p)) => Ok(Some(p))
    case Some(Text(s)) => if IsJsonNull(s) then Ok(None) else Err(SyntaxError)
  }

  /** Whitespace around `null` does not change how it parses. */
  lemma {:induction false} SpacedNullParsesToNull(before: string, after: string)
    requires forall i :: 0 <= i < |before| ==> IsJsonSpace(before[i])
    requires forall i :: 0 <= i < |after| ==> IsJsonSpace(after[i])
    ensures ParseJson(Some(Text(before + "null" + after))) == Ok(None)
    decreases |before| + |after|
  {
    var s := before + "null" + after;
    if |before| > 0 {
      assert s[1..] == before[1..] + "null" + after;
      SpacedNullParsesToNull(before[1..], after);
    } else if |after| > 0 {
      assert s == "null" + after;
      assert s[..|s| - 1] == before + "null" + after[..|after| - 1];
      SpacedNullParsesToNull(before, after[..|after| - 1]);
    } else {
      assert s == "null";
    }
  }

  /** The login response the session store holds under "user", if any. */
  function StoredPayload(session: Session): (r: Option<UserResponse>)
    ensures r.Some? <==> UserKey in session && session[UserKey].Serialized?
  {
    if UserKey in session && session[UserKey].Serialized? then Some(session[UserKey].payload) else None
  }

  /** The auth state a login response stands for. */
  function StateOf(p: UserResponse): AuthState {
    AuthState(Some(User(p.userId, p.username, p.email, p.role)), p.token)
  }
}
