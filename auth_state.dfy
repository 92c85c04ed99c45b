/** The session controller's behaviour as functions on values: the user
    projections, the session state, and what each operation of
    `AuthContextProvider` does to the session and what it returns or throws.
    The class in module AuthProvider performs these steps in place and is
    proved to agree with these functions. */
module AuthState {
  import opened PocketBaseClient
  import opened RouteGuard
  import opened PocketBaseContext

  /** The projected user the context exposes: `{id, email, displayName}`. */
  datatype User = User(id: Field, email: Field, displayName: Field)

  /** `transformUser`: no record gives no user; a record gives its `id`,
      `email` and `displayName` and nothing else. */
  function TransformUser(record: Option<AuthRecord>): (u: Option<User>)
    ensures record.None? <==> u.None?
    ensures record.Some? ==>
              u.value.id == record.value.id && u.value.email == record.value.email &&
              u.value.displayName == record.value.displayName
  {
    match record
    case None => None
    case Some(r) => Some(User(r.id, r.email, r.displayName))
  }

  /** The projection `checkAuthStatus` writes inline: the display name is
      taken from the record's `name`. */
  function StoreUser(r: AuthRecord): User
  {
    User(r.id, r.email, r.name)
  }

  /** The user `handleSignUp` stores: `{id: user.user_uid, email: user.email}`,
      with no display name. */
  function CreatedUser(r: AuthRecord): User
  {
    User(r.userUid, r.email, None)
  }

  /** The three state cells of the provider. */
  datatype SessionState = SessionState(isLoggedIn: bool, user: Option<User>, isLoadingUserData: bool)

  /** `useState(false)`, `useState(null)`, `useState(true)`; also the
      context's default value. */
  const InitialSession := SessionState(false, None, true)

  /** Where, if anywhere, reading the auth store throws inside the `try` of
      `checkAuthStatus`: at `authStore.isValid`, or at `authStore.record`
      (which is read only when the store is valid). */
  datatype ReadFault = NoFault | FaultOnValidity | FaultOnRecord

  /** Whether the read inside the `try` of `checkAuthStatus` throws. */
  predicate ReadThrows(store: StoreState, fault: ReadFault)
  {
    fault == FaultOnValidity || (fault == FaultOnRecord && store.isValid)
  }

  /** There is a client and it has finished loading: the guards of the
      sign-in and sign-up handlers pass. */
  predicate Ready(provider: ProviderState)
  {
    !provider.isLoading && provider.hasClient
  }

  /** How a handler ends: it returns (having possibly issued a navigation)
      or it throws a value to its caller. */
  datatype Outcome = Returned(nav: Navigation) | Threw(error: Thrown)

  const StillInitializingError := ErrorValue("PocketBase is still initializing")
  const NotInitializedError := ErrorValue("PocketBase not initialized")

  /** The session after a handler, with the handler's outcome. */
  datatype Transition = Transition(session: SessionState, outcome: Outcome)

  /** `checkAuthStatus`, run with the client provider in state `provider`
      and, when there is a client, its auth store reporting `store`. */
  function CheckAuthStatus(s: SessionState, provider: ProviderState, store: StoreState,
                           fault: ReadFault): (r: SessionState)
    // while the provider loads nothing changes, so loading stays as it was
    ensures provider.isLoading ==> r == s
    // without a client only the loading flag is cleared
    ensures !provider.isLoading && !provider.hasClient ==> r == s.(isLoadingUserData := false)
    // once the provider has loaded, the session is always resolved
    ensures !provider.isLoading ==> !r.isLoadingUserData
    // a successful read mirrors the store ...
    ensures Ready(provider) && !ReadThrows(store, fault) ==>
              r.isLoggedIn == store.isValid &&
              (r.user.Some? <==> store.isValid && store.record.Some?) &&
              (r.user.Some? ==> r.user.value == StoreUser(store.record.value))
    // ... and a failed one fails closed
    ensures Ready(provider) && ReadThrows(store, fault) ==> !r.isLoggedIn && r.user.None?
  {
    if provider.isLoading then s
    else if !provider.hasClient then s.(isLoadingUserData := false)
    else if ReadThrows(store, fault) then SessionState(false, None, false)
    else
      var user := if store.isValid && store.record.Some? then Some(StoreUser(store.record.value)) else None;
      SessionState(store.isValid, user, false)
  }

  /** `router.replace(path)` for `route`, inside the handler's `try`: it
      either issues the navigation or throws, and a throw is rethrown by the
      handler's `catch`. */
  function ReplaceOutcome(route: Route, call: Attempt): (o: Outcome)
    ensures o.Returned? <==> call.Succeeds?
    ensures o.Returned? ==> o.nav == Replace(route)
    ensures call.Throws? ==> o == Threw(call.thrown)
  {
    match call
    case Succeeds => Returned(Replace(route))
    case Throws(e) => Threw(e)
  }

  /** `handleSignIn`, where `response` is what `authWithPassword` answers
      and `navigation` how the `router.replace` after it ends. */
  function SignIn(s: SessionState, provider: ProviderState, response: AuthResponse,
                  navigation: Attempt): (t: Transition)
    // the guards and a rejected password leave the session unchanged
    ensures !(Ready(provider) && response.Authenticated?) ==> t.session == s
    ensures provider.isLoading ==> t.outcome == Threw(StillInitializingError)
    ensures !provider.isLoading && !provider.hasClient ==> t.outcome == Threw(NotInitializedError)
    ensures Ready(provider) && response.Rejected? ==> t.outcome == Threw(response.thrown)
    // an accepted password signs in, and does so before navigating
    ensures Ready(provider) && response.Authenticated? ==>
              t.session == s.(isLoggedIn := true, user := TransformUser(Some(response.record)))
    // so a navigation that throws is rethrown over the already changed session
    ensures Ready(provider) && response.Authenticated? && navigation.Throws? ==>
              t.outcome == Threw(navigation.thrown)
    // it returns exactly when all three steps succeed, having replaced to '/(protected)'
    ensures t.outcome.Returned? <==> Ready(provider) && response.Authenticated? && navigation.Succeeds?
    ensures t.outcome.Returned? ==> t.outcome.nav == Replace(ProtectedGroup)
  {
    if provider.isLoading then Transition(s, Threw(StillInitializingError))
    else if !provider.hasClient then Transition(s, Threw(NotInitializedError))
    else match response
      case Rejected(e) => Transition(s, Threw(e))
      case Authenticated(record) =>
        var signedIn := s.(user := TransformUser(Some(record)), isLoggedIn := true);
        Transition(signedIn, ReplaceOutcome(ProtectedGroup, navigation))
  }

  /** `handleSignUp`, where `response` is what `create` answers and
      `navigation` how the `router.replace` after it ends. */
  function SignUp(s: SessionState, provider: ProviderState, response: AuthResponse,
                  navigation: Attempt): (t: Transition)
    ensures !(Ready(provider) && response.Authenticated?) ==> t.session == s
    ensures provider.isLoading ==> t.outcome == Threw(StillInitializingError)
    ensures !provider.isLoading && !provider.hasClient ==> t.outcome == Threw(NotInitializedError)
    ensures Ready(provider) && response.Rejected? ==> t.outcome == Threw(response.thrown)
    ensures Ready(provider) && response.Authenticated? ==>
              t.session == s.(isLoggedIn := true, user := Some(CreatedUser(response.record)))
    ensures Ready(provider) && response.Authenticated? && navigation.Throws? ==>
              t.outcome == Threw(navigation.thrown)
    ensures t.outcome.Returned? <==> Ready(provider) && response.Authenticated? && navigation.Succeeds?
    ensures t.outcome.Returned? ==> t.outcome.nav == Replace(ProtectedGroup)
  {
    if provider.isLoading then Transition(s, Threw(StillInitializingError))
    else if !provider.hasClient then Transition(s, Threw(NotInitializedError))
    else match response
      case Rejected(e) => Transition(s, Threw(e))
      case Authenticated(record) =>
        var signedUp := s.(user := Some(CreatedUser(record)), isLoggedIn := true);
        Transition(signedUp, ReplaceOutcome(ProtectedGroup, navigation))
  }

  /** `handleSignOut`. It checks only for a client, not for loading. */
  function SignOut(s: SessionState, provider: ProviderState): (t: Transition)
    ensures !provider.hasClient ==> t == Transition(s, Threw(NotInitializedError))
    ensures provider.hasClient ==>
              t.outcome == Returned(NoNavigation) &&
              !t.session.isLoggedIn && t.session.user.None? &&
              t.session.isLoadingUserData == s.isLoadingUserData
  {
    if !provider.hasClient then Transition(s, Threw(NotInitializedError))
    else Transition(s.(isLoggedIn := false, user := None), Returned(NoNavigation))
  }

  /** The `TypeError` that `pb.collection(...)` raises on a null `pb`, with
      the wording of React Native's JavaScript engine. */
  const NullClientError := ErrorValue("Cannot read property 'collection' of null")

  /** `handleResetPassword`, on the client its caller passes (`clientGiven`
      says whether it is non-null), where `response` is what
      `requestPasswordReset` answers. */
  function ResetPassword(s: SessionState, provider: ProviderState, clientGiven: bool,
                         response: Attempt): (t: Transition)
    // a reset request never touches the session, however it ends
    ensures t.session == s
    ensures provider.isLoading ==> t.outcome == Threw(StillInitializingError)
    // a null client fails inside the `try` and the failure is rethrown
    ensures !provider.isLoading && !clientGiven ==> t.outcome == Threw(NullClientError)
    ensures !provider.isLoading && clientGiven ==>
              (t.outcome == Returned(NoNavigation) <==> response.Succeeds?)
    ensures !provider.isLoading && clientGiven && response.Throws? ==> t.outcome == Threw(response.thrown)
    // it never navigates
    ensures t.outcome.Returned? ==> t.outcome.nav == NoNavigation
  {
    if provider.isLoading then Transition(s, Threw(StillInitializingError))
    else if !clientGiven then Transition(s, Threw(NullClientError))
    else match response
      case Throws(e) => Transition(s, Threw(e))
      case Succeeds => Transition(s, Returned(NoNavigation))
  }

  /** Signing out twice leaves the same session, and the same outcome, as
      signing out once. */
  lemma SignOutIdempotent(s: SessionState, provider: ProviderState)
    ensures var once := SignOut(s, provider);
            SignOut(once.session, provider) == once
  {
  }

  /** The two projections of a record into a user agree on `id` and `email`;
      they give the same user exactly when the record's `displayName` and
      `name` coincide. */
  lemma ProjectionsDifferOnlyInDisplayName(r: AuthRecord)
    ensures TransformUser(Some(r)).value.id == StoreUser(r).id
    ensures TransformUser(Some(r)).value.email == StoreUser(r).email
    ensures TransformUser(Some(r)) == Some(StoreUser(r)) <==> r.displayName == r.name
  {
  }

  /** A valid store without a record yields a session that is logged in and
      has no user: "logged in implies a user" does not hold in general. */
  lemma ValidStoreWithoutRecordLogsInWithoutUser(s: SessionState)
    ensures var r := CheckAuthStatus(s, ProviderState(true, None, false), StoreState(true, None), NoFault);
            r.isLoggedIn && r.user.None? && !r.isLoadingUserData
  {
  }

  /** The redirect issued by a successful sign-in or sign-up lands where the
      route guard, seeing the new session, takes no further action. */
  lemma HandlerRedirectAgreesWithGuard(s: SessionState, provider: ProviderState, response: AuthResponse,
                                       navigation: Attempt, isNavigationReady: bool)
    ensures var t := SignIn(s, provider, response, navigation);
            t.outcome.Returned? ==>
              Decide(isNavigationReady, t.session.isLoadingUserData, t.session.isLoggedIn,
                     LandingSegments(t.outcome.nav.route)) == NoNavigation
    ensures var t := SignUp(s, provider, response, navigation);
            t.outcome.Returned? ==>
              Decide(isNavigationReady, t.session.isLoadingUserData, t.session.isLoggedIn,
                     LandingSegments(t.outcome.nav.route)) == NoNavigation
  {
  }

  /** With the JavaScript SDK, `authWithPassword` resolves to a
      `{token, record}` wrapper rather than to the record, and the handler
      passes that wrapper to `transformUser`, on which `id`, `email` and
      `displayName` are all `undefined`. With such an answer, sign-in logs the
      session in with a user whose three properties are all absent. */
  lemma SignInOnAuthWrapperStoresEmptyUser(s: SessionState, provider: ProviderState, navigation: Attempt)
    requires Ready(provider)
    ensures var t := SignIn(s, provider, Authenticated(AuthRecord(None, None, None, None, None)), navigation);
            t.session.isLoggedIn && t.session.user == Some(User(None, None, None))
  {
  }
}
