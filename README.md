# Session and route-guard model of rn-expo-pocketbase

This project models the sign-in core of an Expo / React Native app that uses
PocketBase as its identity backend. It has three parts:

- **The client provider** (`PocketBaseProvider`). It has three state cells:
  `pb`, `error` and `isLoading`. Its one-shot `initializeClient` effect builds
  a client, runs a health check, and then stores either the client or an
  error message.
- **The session controller** (`AuthContextProvider`). It has three state
  cells: `isLoggedIn`, `user` and `isLoadingUserData`. `checkAuthStatus` sets
  them from the client's auth store. The handlers `handleSignIn`,
  `handleSignUp`, `handleSignOut` and `handleResetPassword` change them. Each
  handler has its own guards, success path and failure path.
- **The route guard** (`useProtectedRoute`). Given whether navigation is
  ready, the session flags and the first route segment, it either does
  nothing or replaces the screen with `/(auth)` or `/(protected)`.

Modules, one per concern:

- `PocketBaseClient` (pocketbase_client.dfy): the values the backend library
  hands over (records, thrown values, call outcomes). Its `Client` class
  stands for the client's auth store: a validity flag and a record that can
  be cleared.
- `PocketBaseContext` (pocketbase_context.dfy): the provider as a class
  (`PocketBaseProvider`) and, as a function, the state `initializeClient`
  leaves behind.
- `RouteGuard` (route_guard.dfy): the guard's decision, and the area policy
  it enforces.
- `AuthState` (auth_state.dfy): the session controller as functions on
  values. It includes `transformUser`, the projection that `checkAuthStatus`
  writes inline, and each operation's effect on the session and its outcome:
  a navigation, or a thrown value.
- `AuthProvider` (auth_provider.dfy): the session controller as a class
  (`AuthContextProvider`). Its fields are the three state cells, and each
  setter call is an assignment. Each handler is a method that runs the
  source's steps in order, including the `try`/`catch`/`finally` of
  `checkAuthStatus`. Each method is proved to leave exactly the state the
  matching `AuthState` function gives.
- `SessionTraces` (session_traces.dfy): any sequence of these operations,
  each seen with the provider state of its moment, and what holds after
  every such sequence.

Backend calls are oracle parameters whose results are not constrained:
`authWithPassword`, `create`, `requestPasswordReset`, client construction,
`health.check`, the `router.replace` after a successful sign-in or sign-up,
and a read of the auth store that throws. `isNavigationReady` and the route
segments are plain inputs.

Behaviour of the code that the model keeps as written:

- `checkAuthStatus` sets `isLoggedIn := authStore.isValid` even when the
  store holds no record. The session can then be logged in with no user
  (`AuthState.ValidStoreWithoutRecordLogsInWithoutUser`).
- Without a `pb`, `checkAuthStatus` clears only `isLoadingUserData`. It
  leaves `isLoggedIn` and `user` unchanged.
- `handleSignIn` and `handleSignUp` set the user and `isLoggedIn` before
  calling `router.replace`, inside the same `try`. A navigation that throws
  is rethrown over the already changed session.
- `handleResetPassword` acts on the client its caller passes, not on the
  context's. It checks only the loading flag, so a null client fails inside
  the `try` with a `TypeError`, which is rethrown.
- Sign-in passes the value `authWithPassword` resolves to through
  `transformUser`, which reads `id`, `email` and `displayName`. With the
  JavaScript SDK that value is a `{token, record}` wrapper, on which all
  three are `undefined` (`AuthState.SignInOnAuthWrapperStoresEmptyUser`).
- The status check projects the display name from the record's `name`.
  Sign-up stores `{id: user_uid, email}` taken from what `create` returns.
- Sign-up does not write the auth store. The session is logged in over an
  unchanged store, and a later status check over that store logs it out
  (`SessionTraces.SignUpDoesNotSurviveStatusCheck`).

## Model

| member | source | states |
|---|---|---|
| PocketBaseClient.Client.ClearAuthStore | lib/contexts/pocketbaseAuthContext.tsx:152 | after `authStore.clear()` the store reports not valid and no record |
| PocketBaseContext.ErrorMessage | lib/contexts/pocketbaseContext.tsx:41-43 | the stored error is the thrown `Error`'s message, and for any other thrown value the literal 'Failed to initialize PocketBase' |
| PocketBaseContext.Initialize | lib/contexts/pocketbaseContext.tsx:27-47 | an existing client leaves the state as it was; otherwise loading ends, there is a client exactly when construction and health check both succeed, exactly one of client and error is set, and on failure the error is the message of the first failing step |
| PocketBaseContext.PocketBaseProvider.constructor | lib/contexts/pocketbaseContext.tsx:22-24 | the provider starts with no client, no error and loading, which is the context's default value (lines 9-13) |
| PocketBaseContext.PocketBaseProvider.InitializeClient | lib/contexts/pocketbaseContext.tsx:26-47 | changes the three cells in the source's order; the new state is the one `Initialize` gives; an existing client is kept; a new client is fresh and holds the persisted store |
| PocketBaseContext.InitializeSettles | lib/contexts/pocketbaseContext.tsx:26-50 | after the one run from the initial state, loading is over and exactly one of client and error is set; once there is a client, running again changes nothing |
| RouteGuard.LandingSegments | lib/contexts/pocketbaseAuthContext.tsx:75-86 | replacing to '/(auth)' or '/(protected)' lands on route segments whose first one is the group name that the `segments[0]` test at line 75 compares against |
| RouteGuard.Decide | lib/contexts/pocketbaseAuthContext.tsx:71-88 | no action while navigation is not ready or user data is loading; after that, it acts exactly when the area breaks the policy (logged out outside '(auth)', or logged in inside it), sending a logged-out user to '/(auth)' and a logged-in user to '/(protected)' |
| RouteGuard.RedirectTargetIsFixpoint | lib/contexts/pocketbaseAuthContext.tsx:75-87 | the location reached after the guard's decision obeys the policy, and the guard does nothing there: it is idempotent |
| AuthState.CheckAuthStatus | lib/contexts/pocketbaseAuthContext.tsx:110-142 | while the provider loads nothing changes; without a client only `isLoadingUserData` becomes false; a successful read gives `isLoggedIn` = `isValid`, and a user exactly when the store is valid and holds a record, that user being `{id, email, displayName: name}`; a throwing read gives logged out with no user; every path past loading ends with `isLoadingUserData` false |
| AuthState.SignIn | lib/contexts/pocketbaseAuthContext.tsx:157-184 | the guards and a rejection leave the session unchanged; throws 'PocketBase is still initializing' while loading and 'PocketBase not initialized' without a client, and rethrows a rejection; an accepted password sets the user to `transformUser` of the answer and sets `isLoggedIn`, then a throwing `router.replace` is rethrown over that changed session; it returns exactly when ready, accepted and navigated, having replaced to '/(protected)' |
| AuthState.SignUp | lib/contexts/pocketbaseAuthContext.tsx:186-217 | the same guards, rejection and navigation-failure behaviour as sign-in; an accepted account sets the user to `{id: user_uid, email}` and sets `isLoggedIn` before `router.replace('/(protected)')` |
| AuthState.SignOut | lib/contexts/pocketbaseAuthContext.tsx:147-155 | without a client it throws 'PocketBase not initialized' and changes nothing; otherwise it ends logged out with no user, the loading flag untouched and no navigation |
| AuthState.ReplaceOutcome | lib/contexts/pocketbaseAuthContext.tsx:179-182 | `router.replace` inside the handler's `try` either issues the navigation or throws, and the throw is what the handler rethrows |
| AuthState.ResetPassword | lib/contexts/pocketbaseAuthContext.tsx:219-230 | the session is never changed; throws while loading; with a null client it rethrows the `TypeError` of `pb.collection`; otherwise it returns exactly when the backend call succeeds and rethrows its failure; it never navigates |
| AuthState.SignOutIdempotent | lib/contexts/pocketbaseAuthContext.tsx:147-155 | signing out twice gives the same session and outcome as signing out once |
| AuthState.TransformUser | lib/contexts/pocketbaseAuthContext.tsx:91-100 | no record gives no user; a record gives a user whose `id`, `email` and `displayName` are the record's own |
| AuthState.ProjectionsDifferOnlyInDisplayName | lib/contexts/pocketbaseAuthContext.tsx:91-131 | `transformUser` agrees with the status check's projection (lines 127-131) on id and email, and matches it exactly when `displayName` equals `name` |
| AuthState.SignInOnAuthWrapperStoresEmptyUser | lib/contexts/pocketbaseAuthContext.tsx:173-178 | an answer without `id`, `email` and `displayName` (the SDK's `{token, record}` wrapper) logs the session in with a user whose three properties are all absent |
| AuthState.ValidStoreWithoutRecordLogsInWithoutUser | lib/contexts/pocketbaseAuthContext.tsx:123-134 | a valid store with no record ends logged in with no user, so "logged in implies a user" fails in general |
| AuthState.HandlerRedirectAgreesWithGuard | lib/contexts/pocketbaseAuthContext.tsx:176-179 | after a successful sign-in or sign-up, the guard takes no action on the screen the handler redirected to |
| AuthProvider.AuthContextProvider.constructor | lib/contexts/pocketbaseAuthContext.tsx:105-107 | the session starts logged out, with no user, and loading |
| AuthProvider.AuthContextProvider.CheckAuthStatus | lib/contexts/pocketbaseAuthContext.tsx:110-142 | runs the early returns and the try/catch/finally step by step; the new session is the one `AuthState.CheckAuthStatus` gives, for the provider's state and its client's store |
| AuthProvider.AuthContextProvider.HandleSignOut | lib/contexts/pocketbaseAuthContext.tsx:147-155 | the new session and the outcome are those of `AuthState.SignOut`; the client's store is cleared when there is a client |
| AuthProvider.AuthContextProvider.HandleSignIn | lib/contexts/pocketbaseAuthContext.tsx:157-184 | the new session and the outcome are those of `AuthState.SignIn`, including a rethrown navigation failure; the auth store is left as it was |
| AuthProvider.AuthContextProvider.HandleSignUp | lib/contexts/pocketbaseAuthContext.tsx:186-217 | the new session and the outcome are those of `AuthState.SignUp`, including a rethrown navigation failure; the auth store is left as it was |
| AuthProvider.AuthContextProvider.HandleResetPassword | lib/contexts/pocketbaseAuthContext.tsx:219-230 | modifies nothing; branches on a null client inside the `try`; session and outcome are those of `AuthState.ResetPassword` |
| SessionTraces.RunKeepsResolved | lib/contexts/pocketbaseAuthContext.tsx:109-230 | after any sequence of operations, a session that had resolved is still resolved |
| SessionTraces.RunResolvesOnceSettled | lib/contexts/pocketbaseAuthContext.tsx:109-145 | once a status check has run after the provider finished loading, the session stays resolved whatever follows |
| SessionTraces.RunNeverFailsOpen | lib/contexts/pocketbaseAuthContext.tsx:109-230 | a sequence of operations ends logged in only if it started logged in, or one of its steps was a successful sign-in, a successful sign-up, or a fault-free read of a valid store |
| SessionTraces.RunKeepsUserWhenLoggedIn | lib/contexts/pocketbaseAuthContext.tsx:109-230 | "logged in implies a user" survives any sequence in which every valid store read also holds a record |
| SessionTraces.ResetsLeaveSessionUnchanged | lib/contexts/pocketbaseAuthContext.tsx:219-230 | any number of password-reset requests, with or without a client, succeeding or failing, leave the session as it was |
| SessionTraces.SignOutEndsSession | lib/contexts/pocketbaseAuthContext.tsx:147-155 | whatever came before, a final sign-out with a client leaves the session logged out with no user, and a second sign-out changes nothing |
| SessionTraces.BootResolvesSession | lib/contexts/pocketbaseAuthContext.tsx:109-145 | at start-up, the status check is a no-op while the provider loads; once `initializeClient` has run, the next check resolves the session, and after a failed initialisation the session is logged out with no user |
| SessionTraces.SignUpDoesNotSurviveStatusCheck | lib/contexts/pocketbaseAuthContext.tsx:186-217 | a successful sign-up logs the session in, yet a status check over the unchanged, invalid store then resolves it logged out with no user |
| SessionTraces.FreshInstallRedirectsToAuth | lib/contexts/pocketbaseAuthContext.tsx:121-134 | with no valid persisted token the session resolves logged out, and the guard sends a protected screen to '/(auth)' |
| SessionTraces.PersistedSessionRedirectsToProtected | lib/contexts/pocketbaseAuthContext.tsx:121-134 | with a valid persisted token and its record, the session resolves logged in with the projected user, and the guard sends the auth screen to '/(protected)' |

## Left out

- React rendering and context plumbing are not modelled, because they are UI. This covers the empty loading view, the `AuthContext.Provider` value, `useAuth` and `usePocketBase`.
- The navigation-ready listener is not modelled, because it is framework event wiring. `isNavigationReady` is a plain input.
- The network calls, the router and the auth store's token logic belong to libraries this model cannot see. `authWithPassword`, `create`, `requestPasswordReset`, `health.check` and `router.replace` are oracle outcomes. The store's validity is a stored flag.
- PocketBaseClient.Client.ClearAuthStore: clearing persistent storage through the store's `clear` callback is not modelled, because it is library and I/O behaviour.
- AuthProvider.AuthContextProvider.HandleSignIn: the auth store is left unchanged. With the SDK, a successful `authWithPassword` also saves the token and record into the store, and that library-internal update is not modelled. `create` (sign-up) does not write the store, which the model matches.
- lib/pocketbaseClient.ts is not part of this model. It covers AsyncStorage persistence, the global `EventSource`, the environment-supplied URL and the memoised singleton. The persisted store is a parameter of `InitializeClient`.
- PocketBaseContext.PocketBaseProvider.InitializeClient: its "fresh client holding the persisted store" holds only for the first construction. `initializePocketbase` memoises its instance (lib/pocketbaseClient.ts:11), so a remounted provider gets the existing client with its in-memory store.
- Async interleavings are not modelled, because concurrency is not a sequential property. This covers batched or deferred `setState`, stale closures, double submits and a sign-out racing a sign-in. Each handler is atomic, and each setter is an immediate assignment.
- `console.error` and `console.log` output is not modelled.
- AuthProvider.AuthContextProvider.HandleSignIn: the email and password are not related to the backend's answer. So the model does not prove that the signed-in user's email equals the email entered.
- AuthState.ResetPassword: the wording of the `TypeError` on a null client depends on the JavaScript engine. The model fixes one wording.
- The global invariant "logged in implies a user" is not proved, because the code does not keep it. `AuthState.ValidStoreWithoutRecordLogsInWithoutUser` gives the counterexample. `SessionTraces.RunKeepsUserWhenLoggedIn` proves the conditional form.
- JavaScript `undefined` values are modelled as `None`. A property absent from the `{id, email}` that sign-up stores reads the same as a property that is present and `undefined`.
