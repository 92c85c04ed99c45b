/** `AuthContextProvider` as an object: the three state cells are fields,
    each setter call is an assignment, and each handler is a method that
    performs the source's steps in order and is proved to leave exactly the
    state the functions of module AuthState describe. The client provider it
    reads `pb` and `isLoading` from is the `context` it was created under. */
module AuthProvider {
  import opened PocketBaseClient
  import opened RouteGuard
  import opened PocketBaseContext
  import opened AuthState

  class AuthContextProvider {
    const context: PocketBaseProvider
    var isLoggedIn: bool
    var user: Option<User>
    var isLoadingUserData: bool

    function Session(): SessionState
      reads this
    {
      SessionState(isLoggedIn, user, isLoadingUserData)
    }

    /** What `usePocketBase()` returns to this provider. */
    function Provider(): ProviderState
      reads context
    {
      context.State()
    }

    /** What the client's auth store reports, when there is a client. */
    function AuthStore(): StoreState
      reads context, context.pb
    {
      if context.pb == null then EmptyStore else context.pb.Store()
    }

    constructor (context: PocketBaseProvider)
      ensures this.context == context
      ensures Session() == InitialSession
    {
      this.context := context;
      isLoggedIn := false;
      user := None;
      isLoadingUserData := true;
    }

    /** `checkAuthStatus`; `fault` says where, if anywhere, reading the auth
        store throws. */
    method CheckAuthStatus(fault: ReadFault)
      modifies this
      ensures Session() == AuthState.CheckAuthStatus(old(Session()), old(Provider()), old(AuthStore()), fault)
    {
      if context.isLoading {
        return;
      }
      if context.pb == null {
        isLoadingUserData := false;
        return;
      }
      // try
      var threw := false;
      isLoadingUserData := true;
      if fault == FaultOnValidity {
        threw := true;
      } else {
        var valid := context.pb.isValid;
        isLoggedIn := valid;
        if valid && fault == FaultOnRecord {
          threw := true;
        } else if valid && context.pb.record.Some? {
          user := Some(StoreUser(context.pb.record.value));
        } else {
          user := None;
        }
      }
      // catch
      if threw {
        isLoggedIn := false;
        user := None;
      }
      // finally
      isLoadingUserData := false;
    }

    /** `handleSignOut`: also clears the client's auth store. */
    method HandleSignOut() returns (outcome: Outcome)
      modifies this, context.pb
      ensures Transition(Session(), outcome) == AuthState.SignOut(old(Session()), old(Provider()))
      ensures context.pb == old(context.pb)
      ensures context.pb != null ==> context.pb.Store() == EmptyStore
    {
      if context.pb == null {
        return Threw(NotInitializedError);
      }
      context.pb.ClearAuthStore();
      isLoggedIn := false;
      user := None;
      outcome := Returned(NoNavigation);
    }

    /** `handleSignIn`; `response` is the backend's answer to
        `authWithPassword(email, password)` and `navigation` how the
        `router.replace('/(protected)')` that follows it ends. The client's
        auth store is left as it was. */
    method HandleSignIn(email: string, password: string, response: AuthResponse, navigation: Attempt)
      returns (outcome: Outcome)
      modifies this
      ensures Transition(Session(), outcome) == AuthState.SignIn(old(Session()), old(Provider()), response, navigation)
      ensures AuthStore() == old(AuthStore())
    {
      if context.isLoading {
        return Threw(StillInitializingError);
      }
      if context.pb == null {
        return Threw(NotInitializedError);
      }
      // try
      match response {
        case Rejected(e) =>
          outcome := Threw(e);
        case Authenticated(record) =>
          user := TransformUser(Some(record));
          isLoggedIn := true;
          // router.replace('/(protected)'), whose throw the catch rethrows
          outcome := ReplaceOutcome(ProtectedGroup, navigation);
      }
    }

    /** `handleSignUp`; `response` is the backend's answer to
        `create({email, password, passwordConfirm})` and `navigation` how the
        `router.replace('/(protected)')` that follows it ends. The client's
        auth store is left as it was. */
    method HandleSignUp(email: string, password: string, passwordConfirm: string, response: AuthResponse,
                        navigation: Attempt)
      returns (outcome: Outcome)
      modifies this
      ensures Transition(Session(), outcome) == AuthState.SignUp(old(Session()), old(Provider()), response, navigation)
      ensures AuthStore() == old(AuthStore())
    {
      if context.isLoading {
        return Threw(StillInitializingError);
      }
      if context.pb == null {
        return Threw(NotInitializedError);
      }
      // try
      match response {
        case Rejected(e) =>
          outcome := Threw(e);
        case Authenticated(record) =>
          user := Some(CreatedUser(record));
          isLoggedIn := true;
          // router.replace('/(protected)'), whose throw the catch rethrows
          outcome := ReplaceOutcome(ProtectedGroup, navigation);
      }
    }

    /** `handleResetPassword`, on the client `pb` its caller passes;
        `response` is what `requestPasswordReset(email)` answers. It modifies
        nothing: the session is left as it was. */
    method HandleResetPassword(pb: Client?, email: string, response: Attempt) returns (outcome: Outcome)
      ensures Transition(Session(), outcome) == AuthState.ResetPassword(Session(), Provider(), pb != null, response)
    {
      if context.isLoading {
        return Threw(StillInitializingError);
      }
      // try
      if pb == null {
        // `pb.collection` on null raises a TypeError, which the catch rethrows
        outcome := Threw(NullClientError);
      } else {
        match response {
          case Throws(e) =>
            outcome := Threw(e);
          case Succeeds =>
            outcome := Returned(NoNavigation);
        }
      }
    }
  }
}
