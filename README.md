# Client-side authentication session model

A Dafny model of the blogging client's authentication session state machine
and of the blog API's request configuration:

- the auth slice (`authSlice.ts`): the `{user, token}` state, its mirror in
  the browser's session storage under the keys `isAuthenticated` and `user`,
  the fulfilled-login, fulfilled-logout and `refreshAuthentication`
  transitions, and the auth API's bearer-header rule;
- the blog API (`blogSlice.ts`): its bearer-header rule keyed on the endpoint
  string, the request each endpoint issues, the projection of list responses,
  and the `"BlogModel"` tag that list queries provide and mutations
  invalidate, over an abstract cache of list results;
- the session-restore listener (`store.ts`): its predicate, its effect (one
  `refreshAuthentication`), and whole runs of dispatches after a page load;
- the app shell (`App.tsx`): how `authState` and `isAuthenticated` are
  derived from the store's state and a direct read of session storage.

Files: `types.dfy` (module `AuthTypes`: users, login responses, auth state,
session values, `JSON.parse` of a session item), `http.dfy` (module `Http`:
the mutable headers object and token truthiness), `auth_slice.dfy`,
`blog_slice.dfy`, `store.dfy`, `app.dfy`.

The transitions of the auth slice are functions on a `Snapshot` (auth state
plus session store). The class `AuthSlice.AuthStore` holds the same data in
fields (`user`, `token`, `session: map<string, SessionValue>`) and has one
method per transition, each proved against its function. The central
invariant is `AuthSlice.Synced`: without a user there is no token, and with a
user the session holds `isAuthenticated = "true"` and a stored login response
from which the state was built. Every dispatch preserves it
(`Store.RunPreservesSynced`). Once any action has been dispatched after a page
load, the shell's derived state equals the store's own
(`App.ShellMatchesStoreOnceDispatched`). Before that, it equals what the
listener would restore (`App.ShellAnticipatesListener`).

The stored `user` item is abstracted. `Serialized(p)` is any text that
`JSON.parse` reads as the login response `p`; the text `JSON.stringify` writes
for `p` is one such text. `Text(s)` is any other text. `JSON.parse` gives `p`
back from `Serialized(p)`. It gives `null` for an absent item and for the
literal `null` with any JSON whitespace around it. Any other text throws a
`SyntaxError`.

Three behaviours of the code are worth stating plainly:

- The code does not fail closed on a bad session record. With the flag
  `"true"`, `refreshAuthentication` throws when the stored item is missing or
  unparseable: a `SyntaxError` from `JSON.parse`, or a `TypeError` from reading
  `token` off `null`. `AuthSlice.AfterRefresh` returns that error. The listener
  swallows it, so the state stays empty (`Store.FailedRestoreRetries`).
- Whether a blog request carries a bearer header is decided by comparing the
  `endpoint` string handed to `prepareHeaders` with `"posts/all"` and the
  prefix `"posts/user"`. The model keeps that string arbitrary.
- The app shell parses the stored `user` item before it looks at the flag, so
  malformed stored text makes the derivation throw even when the flag is not
  `"true"`. `App.DeriveAuthState` returns that error.

## Model

| member | source | states |
|---|---|---|
| AuthTypes.GetItem | packages/frontend/src/services/auth/authSlice.ts:68-70 | `sessionStorage.getItem` gives a value exactly when the key is present, and then the stored value |
| AuthTypes.ParseJson | packages/frontend/src/services/auth/authSlice.ts:70-71 | parsing a session item yields `null` exactly for an absent item or text that reads as `null`, throws exactly for other text, and gives back the stored login response unchanged |
| AuthTypes.SpacedNullParsesToNull | packages/frontend/src/services/auth/authSlice.ts:71 | `null` with any JSON whitespace before and after it parses to `null` |
| AuthSlice.InitialState | packages/frontend/src/services/auth/authSlice.ts:62-65 | the initial auth state has neither user nor token |
| AuthSlice.AfterLogin | packages/frontend/src/services/auth/authSlice.ts:84-96 | a fulfilled login sets the token and the `{id, username, email, role}` user from the response, writes `isAuthenticated = "true"` and the response under `user`, touches no other key, and leaves state and session in agreement |
| AuthSlice.AfterLogout | packages/frontend/src/services/auth/authSlice.ts:98-103 | a fulfilled logout returns the state to the initial one, removes both session keys, keeps every other key, and leaves state and session in agreement |
| AuthSlice.AfterRefresh | packages/frontend/src/services/auth/authSlice.ts:67-81 | refresh is a no-op unless the flag is exactly "true"; it throws exactly when the flag is "true" and no parseable response is stored; otherwise it rebuilds the state from the stored response; it never writes the session |
| AuthSlice.Reduce | packages/frontend/src/services/auth/authSlice.ts:83-104 | rejected logins and logouts, register outcomes and unrelated actions change nothing; only a refresh can throw |
| AuthSlice.LoginThenRefresh | packages/frontend/src/services/auth/authSlice.ts:67-96 | a refresh right after a fulfilled login rebuilds exactly the state the login set |
| AuthSlice.RefreshIdempotent | packages/frontend/src/services/auth/authSlice.ts:67-81 | repeating a successful refresh changes nothing |
| AuthSlice.ReducePreservesSynced | packages/frontend/src/services/auth/authSlice.ts:67-104 | every action the reducer accepts keeps the state and the session store in agreement |
| AuthSlice.AuthHeaders | packages/frontend/src/services/auth/authSlice.ts:17-23 | the auth API adds `Authorization: Bearer <token>` exactly when the token is non-null and non-empty, and otherwise returns the headers unchanged; no other header changes |
| AuthSlice.NoBearerAfterLogout | packages/frontend/src/services/auth/authSlice.ts:17-23 | after a fulfilled logout the auth API sends no bearer header |
| AuthSlice.Loaded | packages/frontend/src/services/auth/authSlice.ts:60-65 | a store created on page load has neither user nor token, keeps the surviving session, and is in agreement with it |
| AuthSlice.AuthStore.constructor | packages/frontend/src/services/auth/authSlice.ts:60-65 | the in-place store created on page load is the snapshot `Loaded` gives |
| AuthSlice.AuthStore.RefreshAuthentication | packages/frontend/src/services/auth/authSlice.ts:67-81 | the in-place refresh reaches the state `AfterRefresh` gives, or throws its error and changes nothing |
| AuthSlice.AuthStore.OnLoginFulfilled | packages/frontend/src/services/auth/authSlice.ts:84-97 | the in-place login handler reaches the state `AfterLogin` gives |
| AuthSlice.AuthStore.OnLogoutFulfilled | packages/frontend/src/services/auth/authSlice.ts:98-103 | the in-place logout handler reaches the state `AfterLogout` gives |
| AuthSlice.AuthStore.Handle | packages/frontend/src/services/auth/authSlice.ts:83-104 | the in-place reducer reaches the state `Reduce` gives, or throws and changes nothing |
| AuthSlice.AuthStore.PrepareHeaders | packages/frontend/src/services/auth/authSlice.ts:17-23 | updates the given headers object as `AuthHeaders` says and returns that same object |
| Http.Headers.Set | packages/frontend/src/services/posts/blogSlice.ts:22 | `headers.set` adds or replaces one header and keeps the rest |
| BlogSlice.BlogAttachesBearer | packages/frontend/src/services/posts/blogSlice.ts:21 | the blog rule attaches a bearer header only for a truthy token, and never for "posts/all" |
| BlogSlice.BlogHeaders | packages/frontend/src/services/posts/blogSlice.ts:18-25 | the blog API adds the bearer header only for a truthy token and an endpoint other than "posts/all" and not starting with "posts/user"; otherwise the headers are unchanged; no other header changes |
| BlogSlice.PrepareHeaders | packages/frontend/src/services/posts/blogSlice.ts:18-25 | updates the given headers object as `BlogHeaders` says and returns that same object |
| BlogSlice.UserPrefixedEndpointsArePublic | packages/frontend/src/services/posts/blogSlice.ts:21 | no endpoint string beginning with "posts/user" gets a bearer header, whatever the token |
| BlogSlice.BlogRuleNarrowsAuthRule | packages/frontend/src/services/posts/blogSlice.ts:21-22 | the blog rule only attaches a header when the auth API's rule would, and agrees with it outside the two public endpoints |
| BlogSlice.RequestOf | packages/frontend/src/services/posts/blogSlice.ts:32-75 | exactly the two list queries are GET requests without a body |
| BlogSlice.UsernameUrlRoundTrip | packages/frontend/src/services/posts/blogSlice.ts:41 | the per-user list URL is "posts/user/" followed by the username, which can be read back from it |
| BlogSlice.RequestBodies | packages/frontend/src/services/posts/blogSlice.ts:46-72 | create and update send the caller's body unchanged; delete sends exactly `{id, title}` from the request |
| BlogSlice.RuleOnRequestUrls | packages/frontend/src/services/posts/blogSlice.ts:18-75 | applied to the request URLs, the header rule keeps both list queries public and sends a bearer header on every mutation exactly when the token is truthy |
| BlogSlice.TransformResponse | packages/frontend/src/services/posts/blogSlice.ts:36 | a list query's result is the response's `posts`, same length and same element at every index |
| BlogSlice.ProvidesTags | packages/frontend/src/services/posts/blogSlice.ts:38-44 | the only tag any endpoint provides is "BlogModel", and exactly the two list queries provide it |
| BlogSlice.InvalidatesTags | packages/frontend/src/services/posts/blogSlice.ts:53-73 | the only tag any endpoint invalidates is "BlogModel"; exactly create, delete and update invalidate it, each covering every tag a list query provides |
| BlogSlice.OnQueryFulfilled | packages/frontend/src/services/posts/blogSlice.ts:32-45 | a fulfilled list query caches exactly the response's `posts`, in order, as fresh, under its own key, and leaves other entries alone |
| BlogSlice.OnMutationFulfilled | packages/frontend/src/services/posts/blogSlice.ts:46-75 | a fulfilled mutation marks stale every entry sharing a tag it invalidates, leaves the other entries as they were, and changes no cached data or tags |
| BlogSlice.MutationMarksAllStale | packages/frontend/src/services/posts/blogSlice.ts:38-73 | after any fulfilled create, delete or update, every cached list, all posts and per user, is stale |
| BlogSlice.ApplyAllWellTagged | packages/frontend/src/services/posts/blogSlice.ts:38-44 | every cached entry stays a list query carrying the "BlogModel" tag, whatever sequence of events happens |
| BlogSlice.StaleUntilRefetched | packages/frontend/src/services/posts/blogSlice.ts:53-73 | a stale list stays stale until its own query is fulfilled again |
| BlogSlice.StaleAfterMutation | packages/frontend/src/services/posts/blogSlice.ts:53-73 | after a successful mutation, every list cached before it reads as stale until that list is fetched again |
| Store.ShouldRestore | packages/frontend/src/store.ts:48-54 | the listener fires only from the empty state with no user and no token, and only when the session flag is "true" |
| Store.PredicateIgnoresActionAndOriginal | packages/frontend/src/store.ts:48-54 | the listener predicate depends on neither the action nor the previous state |
| Store.PredicateIffUnmirroredLogin | packages/frontend/src/store.ts:48-54 | in an agreeing store the listener fires exactly when the session flag is "true" and the state has no user |
| Store.SignedInNeverRestores | packages/frontend/src/store.ts:50-51 | a state with a user or a token never fires the listener, whatever the session holds |
| Store.Effect | packages/frontend/src/store.ts:55-59 | the effect never touches the session; it restores the stored response's state when the flag is "true" and a response is stored, and otherwise changes nothing |
| Store.Dispatch | packages/frontend/src/store.ts:47-60 | a dispatch fails exactly when the reducer throws; when the predicate holds after the reducer step, the effect's single refresh is applied to that step's result; otherwise the result is the plain reducer step |
| Store.Step | packages/frontend/src/store.ts:47-60 | a dispatch whose reducer throws leaves the store as it was, and only a fulfilled login or logout writes the session |
| Store.Run | packages/frontend/src/store.ts:47-60 | a sequence of dispatches without a fulfilled login or logout leaves the session store as it was |
| Store.RestoreDisarmsListener | packages/frontend/src/store.ts:49-57 | after a successful restore the predicate is false, so the dispatched refresh does not set off a second restore |
| Store.FailedRestoreRetries | packages/frontend/src/store.ts:49-57 | with the flag "true" and nothing parseable stored, a dispatch changes nothing and leaves the predicate on |
| Store.StepPreservesSynced | packages/frontend/src/store.ts:47-60 | one dispatch, listener included, keeps state and session in agreement |
| Store.StepRestores | packages/frontend/src/store.ts:47-60 | after any dispatch of an agreeing store, a session holding a login is mirrored exactly by the state |
| Store.RunPreservesSynced | packages/frontend/src/store.ts:47-60 | every sequence of dispatches after a page load keeps state and session in agreement |
| Store.RestoredOnceDispatched | packages/frontend/src/store.ts:47-60 | once any action has been dispatched after a page load, a session holding a login is mirrored exactly by the state |
| Store.DispatchAction | packages/frontend/src/store.ts:47-60 | the in-place dispatch reaches the state `Dispatch` gives, or throws its error and changes nothing |
| Store.ListenerEffect | packages/frontend/src/store.ts:55-59 | the in-place effect dispatches one refresh and reaches the state `Effect` gives |
| App.Coalesce | packages/frontend/src/App.tsx:37-38 | `a ?? b` is `a` unless it is null, then `b` |
| App.ReadSessionUser | packages/frontend/src/App.tsx:26-27 | the shell's read of the stored user throws exactly for stored text that is neither empty nor read as `null`, and otherwise yields the stored login response if there is one |
| App.DeriveAuthState | packages/frontend/src/App.tsx:17-48 | `isAuthenticated` holds exactly when the derived state has user and token; with the flag "true" and a stored response, the user always comes from the response and the token from it unless null; otherwise the store's state is passed through unchanged |
| App.ShellAnticipatesListener | packages/frontend/src/App.tsx:17-48 | in an agreeing store the shell shows exactly the state the listener settles on |
| App.ShellMatchesStoreOnceDispatched | packages/frontend/src/App.tsx:17-48 | after any dispatch following a page load, the shell's `authState` is the store's own and `isAuthenticated` says whether it has user and token |

## Left out

- Network calls, `fetchBaseQuery`, the base URL, `credentials: "include"` and `validateStatus`: request outcomes are taken as given fulfilled or rejected actions.
- The auth API's request definitions (login, logout and register URLs and bodies, `authSlice.ts:26-53`): only their outcomes reach the model, as actions.
- `transformErrorResponse` on the blog endpoints: error payloads are passed through by the library and carry no logic here.
- RTK Query's cache internals, `refetchOnFocus`, `refetchOnReconnect` and `setupListeners`: invalidation is modelled only as the abstract rule "a fulfilled mutation marks entries sharing its tag stale". Whether a failed mutation also invalidates is library behaviour and is not modelled.
- The listener's `await listenerApi.delay(800)` and its `console.log`: timing and logging. The effect's refresh is modelled as running right after the action that triggered it, with no other dispatch in between.
- React rendering, `createBrowserRouter`, routes and loaders (`App.tsx:50-108`).
- `JSON.stringify` and `JSON.parse` as text processing. Text that is valid JSON but reads as neither `null` nor a login response (a number, a string, an object without the login fields) is treated like malformed text. The source would instead build a user from `undefined` fields.
- Writers of session storage other than the auth reducers (other code in the page, the user through developer tools) are not modelled. `Store.RunPreservesSynced`, `Store.RestoredOnceDispatched` and `App.ShellMatchesStoreOnceDispatched` hold only when, after a page load, the session store changes only through the fulfilled login and logout handlers.
- A token that is `undefined` (a response without a `token` field) is identified with `null`. The two differ only in the shell's `token !== null` test.
- Which string the request library passes as `endpoint` to the blog `prepareHeaders`: it is an arbitrary string parameter. `BlogSlice.RuleOnRequestUrls` describes the rule applied to the request URLs.
- Header names are matched exactly. The browser's `Headers` object matches them case-insensitively.
- Store wiring and typed hooks (`configureStore`, `useAppSelector`, `useAppDispatch`, `store.ts:16-39`).
- The field types of users, login responses and posts: the types module of the client is not part of this model, so ids of users are integers and everything else is text.
