/** The client provider (`PocketBaseProvider`): three state cells `pb`,
    `error` and `isLoading`, and the one-shot `initializeClient` effect that
    constructs a client, checks the backend's health and records either the
    client or an error message. */
module PocketBaseContext {
  import opened PocketBaseClient

  /** What consumers of the context observe: whether `pb` is set, the error
      message, and the loading flag. */
  datatype ProviderState = ProviderState(hasClient: bool, error: Option<string>, isLoading: bool)

  /** The context's default value, which is also the provider's initial state. */
  const DefaultContext := ProviderState(false, None, true)

  /** The message stored when initialisation fails. */
  const InitFailureMessage := "Failed to initialize PocketBase"

  /** `err instanceof Error ? err.message : 'Failed to initialize PocketBase'` */
  function ErrorMessage(err: Thrown): (m: string)
    ensures err.ErrorValue? ==> m == err.message
    ensures err.NonErrorValue? ==> m == InitFailureMessage
  {
    match err
    case ErrorValue(message) => message
    case NonErrorValue => InitFailureMessage
  }

  /** Whether constructing the client and checking its health both succeed. */
  predicate ConnectionSucceeds(construct: Attempt, health: Attempt)
  {
    construct.Succeeds? && health.Succeeds?
  }

  /** The value caught when initialisation fails: the construction's failure
      if it failed, else the health check's (which is never run after a
      failed construction). */
  function FirstFailure(construct: Attempt, health: Attempt): Thrown
    requires !ConnectionSucceeds(construct, health)
  {
    if construct.Throws? then construct.thrown else health.thrown
  }

  /** The state after `initializeClient` runs in state `p`, given the
      outcome of constructing the client and of its health check. */
  function Initialize(p: ProviderState, construct: Attempt, health: Attempt): (r: ProviderState)
    // an existing client short-circuits the effect: nothing changes
    ensures p.hasClient ==> r == p
    // once the `try` is entered, loading ends and exactly one of client and error is set
    ensures !p.hasClient ==> !r.isLoading && (r.hasClient <==> r.error.None?)
    ensures !p.hasClient ==> (r.hasClient <==> ConnectionSucceeds(construct, health))
    ensures !p.hasClient && !r.hasClient ==>
              r.error == Some(ErrorMessage(FirstFailure(construct, health)))
  {
    if p.hasClient then p
    else if ConnectionSucceeds(construct, health) then ProviderState(true, None, false)
    else ProviderState(false, Some(ErrorMessage(FirstFailure(construct, health))), false)
  }

  class PocketBaseProvider {
    var pb: Client?
    var error: Option<string>
    var isLoading: bool

    function State(): ProviderState
      reads this
    {
      ProviderState(pb != null, error, isLoading)
    }

    /** `useState(null)`, `useState(null)`, `useState(true)`. */
    constructor ()
      ensures State() == DefaultContext && pb == null
    {
      pb := null;
      error := None;
      isLoading := true;
    }

    /** `initializeClient`. The client that construction would produce starts
        with the auth store loaded from persistent storage, `persisted`. */
    method InitializeClient(construct: Attempt, persisted: StoreState, health: Attempt)
      modifies this
      ensures State() == Initialize(old(State()), construct, health)
      ensures old(pb) != null ==> pb == old(pb)
      ensures old(pb) == null && pb != null ==> fresh(pb) && pb.Store() == persisted
    {
      if pb != null {
        return;
      }
      // try
      var caught: Option<Thrown> := None;
      match construct {
        case Throws(e) =>
          caught := Some(e);
        case Succeeds =>
          var instance := new Client(persisted);
          match health {
            case Throws(e) =>
              caught := Some(e);
            case Succeeds =>
              pb := instance;
              error := None;
          }
      }
      // catch
      if caught.Some? {
        error := Some(ErrorMessage(caught.value));
      }
      // finally
      isLoading := false;
    }
  }

  /** After initialisation has run once from the initial state, the loading
      flag is down and the provider holds a client exactly when there is no
      error; a second run changes nothing. */
  lemma InitializeSettles(construct: Attempt, health: Attempt, construct2: Attempt, health2: Attempt)
    ensures var p := Initialize(DefaultContext, construct, health);
            !p.isLoading && (p.hasClient != p.error.Some?) &&
            (p.hasClient ==> Initialize(p, construct2, health2) == p)
  {
  }
}
