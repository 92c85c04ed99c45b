/** Sequences of session operations: every run of `checkAuthStatus` and every
    handler call, each seen with the client provider's state at that moment,
    applied one after another to the session. The lemmas here state what
    holds after ANY such sequence. */
module SessionTraces {
  import opened PocketBaseClient
  import opened RouteGuard
  import opened PocketBaseContext
  import opened AuthState

  /** One operation on the session, with the backend's answers it receives. */
  datatype Event =
    | StatusCheck(store: StoreState, fault: ReadFault)
    | SignInCall(response: AuthResponse, navigation: Attempt)
    | SignUpCall(response: AuthResponse, navigation: Attempt)
    | SignOutCall
    | ResetPasswordCall(clientGiven: bool, resetResponse: Attempt)

  /** An operation together with the client provider's state when it runs. */
  datatype Step = Step(provider: ProviderState, event: Event)

  /** The session after one step. */
  function Apply(s: SessionState, step: Step): SessionState
  {
    match step.event
    case StatusCheck(store, fault) => CheckAuthStatus(s, step.provider, store, fault)
    case SignInCall(response, navigation) => SignIn(s, step.provider, response, navigation).session
    case SignUpCall(response, navigation) => SignUp(s, step.provider, response, navigation).session
    case SignOutCall => SignOut(s, step.provider).session
    case ResetPasswordCall(clientGiven, response) => ResetPassword(s, step.provider, clientGiven, response).session
  }

  /** The session after a sequence of steps, first to last. */
  function Run(s: SessionState, steps: seq<Step>): SessionState
    decreases |steps|
  {
    if steps == [] then s else Run(Apply(s, steps[0]), steps[1..])
  }

  /** A step that can log the session in: a handler whose backend call
      succeeded, or a status check that read a valid store. */
  predicate Authenticates(step: Step)
  {
    Ready(step.provider) &&
    match step.event
    case StatusCheck(store, fault) => store.isValid && fault == NoFault
    case SignInCall(response, _) => response.Authenticated?
    case SignUpCall(response, _) => response.Authenticated?
    case _ => false
  }

  /** A status check that runs after the client provider has finished
      loading. */
  predicate Settles(step: Step)
  {
    step.event.StatusCheck? && !step.provider.isLoading
  }

  /** A status check whose valid store also holds a record (the condition
      under which "logged in implies a user" is kept). */
  predicate RecordBacked(step: Step)
  {
    step.event.StatusCheck? ==> (step.event.store.isValid ==> step.event.store.record.Some?)
  }

  lemma {:induction false} RunAppend(s: SessionState, a: seq<Step>, b: seq<Step>)
    ensures Run(s, a + b) == Run(Run(s, a), b)
    decreases |a|
  {
    if a == [] {
      assert a + b == b;
    } else {
      assert (a + b)[0] == a[0];
      assert (a + b)[1..] == a[1..] + b;
      RunAppend(Apply(s, a[0]), a[1..], b);
    }
  }

  /** Once resolved, the session never goes back to loading. */
  lemma {:induction false} RunKeepsResolved(s: SessionState, steps: seq<Step>)
    requires !s.isLoadingUserData
    ensures !Run(s, steps).isLoadingUserData
    decreases |steps|
  {
    if steps != [] {
      RunKeepsResolved(Apply(s, steps[0]), steps[1..]);
    }
  }

  /** As soon as one status check runs after the client provider has loaded,
      the session is resolved for good. */
  lemma {:induction false} RunResolvesOnceSettled(s: SessionState, steps: seq<Step>)
    requires exists i :: 0 <= i < |steps| && Settles(steps[i])
    ensures !Run(s, steps).isLoadingUserData
    decreases |steps|
  {
    if Settles(steps[0]) {
      RunKeepsResolved(Apply(s, steps[0]), steps[1..]);
    } else {
      var i :| 0 <= i < |steps| && Settles(steps[i]);
      assert Settles(steps[1..][i - 1]);
      RunResolvesOnceSettled(Apply(s, steps[0]), steps[1..]);
    }
  }

  /** Fail closed: the session ends logged in only if it started logged in
      or some step was a successful sign-in, sign-up or valid store read. */
  lemma {:induction false} RunNeverFailsOpen(s: SessionState, steps: seq<Step>)
    ensures Run(s, steps).isLoggedIn ==>
              s.isLoggedIn || exists i :: 0 <= i < |steps| && Authenticates(steps[i])
    decreases |steps|
  {
    if steps != [] {
      var next := Apply(s, steps[0]);
      RunNeverFailsOpen(next, steps[1..]);
      if Run(s, steps).isLoggedIn && !s.isLoggedIn && !Authenticates(steps[0]) {
        assert !next.isLoggedIn;
        var j :| 0 <= j < |steps[1..]| && Authenticates(steps[1..][j]);
        assert Authenticates(steps[j + 1]);
      }
    }
  }

  /** "Logged in implies a user" is kept by every operation except a status
      check on a valid store that holds no record. */
  lemma {:induction false} RunKeepsUserWhenLoggedIn(s: SessionState, steps: seq<Step>)
    requires s.isLoggedIn ==> s.user.Some?
    requires forall i :: 0 <= i < |steps| ==> RecordBacked(steps[i])
    ensures Run(s, steps).isLoggedIn ==> Run(s, steps).user.Some?
    decreases |steps|
  {
    if steps != [] {
      assert RecordBacked(steps[0]);
      RunKeepsUserWhenLoggedIn(Apply(s, steps[0]), steps[1..]);
    }
  }

  /** Password-reset requests, however they end and whatever client they
      are given, never change the session. */
  lemma {:induction false} ResetsLeaveSessionUnchanged(s: SessionState, steps: seq<Step>)
    requires forall i :: 0 <= i < |steps| ==> steps[i].event.ResetPasswordCall?
    ensures Run(s, steps) == s
    decreases |steps|
  {
    if steps != [] {
      assert steps[0].event.ResetPasswordCall?;
      ResetsLeaveSessionUnchanged(s, steps[1..]);
    }
  }

  /** Whatever happened before, a final sign-out with a client leaves the
      session logged out, and a further sign-out changes nothing. */
  lemma SignOutEndsSession(s: SessionState, steps: seq<Step>, provider: ProviderState)
    requires provider.hasClient
    ensures var out := Run(s, steps + [Step(provider, SignOutCall)]);
            !out.isLoggedIn && out.user.None? &&
            Run(s, steps + [Step(provider, SignOutCall), Step(provider, SignOutCall)]) == out
  {
    RunAppend(s, steps, [Step(provider, SignOutCall)]);
    RunAppend(s, steps, [Step(provider, SignOutCall), Step(provider, SignOutCall)]);
  }

  /** Start-up: the first status check runs while the client provider is
      still loading and changes nothing; after `initializeClient` the second
      one resolves the session, and a failed initialisation leaves it
      logged out. */
  lemma BootResolvesSession(construct: Attempt, health: Attempt, store: StoreState, fault: ReadFault)
    ensures var provider := Initialize(DefaultContext, construct, health);
            var s := Run(InitialSession, [Step(DefaultContext, StatusCheck(store, fault)),
                                          Step(provider, StatusCheck(store, fault))]);
            !s.isLoadingUserData &&
            (!ConnectionSucceeds(construct, health) ==> !s.isLoggedIn && s.user.None?)
  {
    var provider := Initialize(DefaultContext, construct, health);
    var first, second := Step(DefaultContext, StatusCheck(store, fault)), Step(provider, StatusCheck(store, fault));
    var steps := [first, second];
    assert steps[1..] == [second];
    assert [second][1..] == [];
    calc {
      Run(InitialSession, steps);
      Run(Apply(InitialSession, first), [second]);
      Run(Apply(Apply(InitialSession, first), second), []);
    }
  }

  /** A fresh install (no valid token): the session resolves logged out and
      the guard sends a protected screen to the auth group. */
  lemma FreshInstallRedirectsToAuth()
    ensures var provider := Initialize(DefaultContext, Succeeds, Succeeds);
            var s := CheckAuthStatus(InitialSession, provider, EmptyStore, NoFault);
            !s.isLoggedIn && !s.isLoadingUserData &&
            Decide(true, s.isLoadingUserData, s.isLoggedIn, LandingSegments(ProtectedGroup)) == Replace(AuthGroup)
  {
  }

  /** A persisted valid session with its record: the session resolves
      logged in with that user, and the guard sends the auth screen to the
      protected group. */
  lemma PersistedSessionRedirectsToProtected(r: AuthRecord)
    ensures var provider := Initialize(DefaultContext, Succeeds, Succeeds);
            var s := CheckAuthStatus(InitialSession, provider, StoreState(true, Some(r)), NoFault);
            s.isLoggedIn && s.user == Some(StoreUser(r)) &&
            Decide(true, s.isLoadingUserData, s.isLoggedIn, LandingSegments(AuthGroup)) == Replace(ProtectedGroup)
  {
  }

  /** Sign-up logs the session in but leaves the auth store as it was (in
      the model, as in the SDK, `create` does not authenticate). A status
      check over that unchanged, invalid store, such as the one at the next
      start, resolves the session logged out again. */
  lemma SignUpDoesNotSurviveStatusCheck(s: SessionState, provider: ProviderState, record: AuthRecord,
                                        store: StoreState)
    requires Ready(provider) && !store.isValid
    ensures Run(s, [Step(provider, SignUpCall(Authenticated(record), Succeeds))]).isLoggedIn
    ensures var out := Run(s, [Step(provider, SignUpCall(Authenticated(record), Succeeds)),
                               Step(provider, StatusCheck(store, NoFault))]);
            !out.isLoggedIn && out.user.None? && !out.isLoadingUserData
  {
    var signUp, check := Step(provider, SignUpCall(Authenticated(record), Succeeds)), Step(provider, StatusCheck(store, NoFault));
    var signedUp := Apply(s, signUp);
    assert [signUp][1..] == [];
    assert Run(s, [signUp]) == Run(signedUp, []) == signedUp;
    assert [signUp, check][1..] == [check];
    assert [check][1..] == [];
    calc {
      Run(s, [signUp, check]);
      Run(signedUp, [check]);
      Run(Apply(signedUp, check), []);
    }
  }
}
