/** The route guard (`useProtectedRoute`): a decision, re-taken on every
    change of its inputs, whether to replace the current screen by the entry
    of the auth group or of the protected group. */
module RouteGuard {

  /** The two navigation targets the application ever replaces to. */
  datatype Route = AuthGroup | ProtectedGroup

  /** A navigation effect: nothing, or `router.replace(path)`. */
  datatype Navigation = NoNavigation | Replace(route: Route)

  const AuthSegment := "(auth)"
  const ProtectedSegment := "(protected)"

  /** The route group a target names. */
  function GroupSegment(r: Route): string
  {
    match r
    case AuthGroup => AuthSegment
    case ProtectedGroup => ProtectedSegment
  }

  /** The path handed to `router.replace`: `'/(auth)'` or `'/(protected)'`. */
  function Path(r: Route): string
  {
    match r
    case AuthGroup => "/(auth)"
    case ProtectedGroup => "/(protected)"
  }

  /** The route segments once `router.replace(Path(r))` has landed on the
      group's index screen: the path without its leading '/', as the one
      segment naming the route group. */
  function LandingSegments(r: Route): (segments: seq<string>)
    ensures segments == [GroupSegment(r)]
  {
    [Path(r)[1..]]
  }

  /** `segments[0] === '(auth)'`; with no segments, `segments[0]` is
      `undefined` and the test is false. */
  predicate InAuthGroup(segments: seq<string>)
  {
    |segments| > 0 && segments[0] == AuthSegment
  }

  /** The area policy the guard enforces: a logged-out user stays in the
      auth group, a logged-in user stays out of it. */
  predicate AreaAllowed(isLoggedIn: bool, segments: seq<string>)
  {
    isLoggedIn != InAuthGroup(segments)
  }

  /** The body of the guard's second effect. */
  function Decide(isNavigationReady: bool, isLoadingUserData: bool, isLoggedIn: bool,
                  segments: seq<string>): (nav: Navigation)
    // defers while navigation is not ready or the session is still loading
    ensures !isNavigationReady || isLoadingUserData ==> nav == NoNavigation
    // otherwise it acts exactly when the current area is not allowed ...
    ensures isNavigationReady && !isLoadingUserData ==>
              (nav == NoNavigation <==> AreaAllowed(isLoggedIn, segments))
    // ... and then sends the user to the area that is
    ensures nav == Replace(AuthGroup) <==>
              isNavigationReady && !isLoadingUserData && !isLoggedIn && !InAuthGroup(segments)
    ensures nav == Replace(ProtectedGroup) <==>
              isNavigationReady && !isLoadingUserData && isLoggedIn && InAuthGroup(segments)
  {
    if !isNavigationReady || isLoadingUserData then NoNavigation
    else
      var inAuthGroup := segments != [] && segments[0] == "(auth)";
      if !isLoggedIn && !inAuthGroup then Replace(AuthGroup)
      else if isLoggedIn && inAuthGroup then Replace(ProtectedGroup)
      else NoNavigation
  }

  /** Landing where the guard sends the user satisfies the policy, so
      re-running the guard on the new location takes no action: one redirect
      always suffices, and the guard is idempotent. */
  lemma RedirectTargetIsFixpoint(isLoggedIn: bool, segments: seq<string>)
    ensures var nav := Decide(true, false, isLoggedIn, segments);
            var landed := if nav.Replace? then LandingSegments(nav.route) else segments;
            AreaAllowed(isLoggedIn, landed) && Decide(true, false, isLoggedIn, landed) == NoNavigation
  {
  }
}
