/**
 * The route guard: it redirects an unauthenticated visitor to the login page
 * and renders its children only for an authenticated one.
 */
module ProtectedRoute {
  import opened Replies
  import opened Auth

  /** What the guard does for one state of the auth flag and one path. */
  datatype Decision = Decision(redirectTo: Option<string>, rendersChildren: bool)

  /** The redirect effect and the render decision. */
  function Guard(isAuthenticated: bool, pathname: string): (d: Decision)
    ensures d.rendersChildren <==> isAuthenticated
    ensures d.redirectTo.Some? <==> !isAuthenticated && pathname != LoginPath
    ensures d.redirectTo.Some? ==> d.redirectTo.value == LoginPath
  {
    Decision(if !isAuthenticated && pathname != LoginPath then Some(LoginPath) else None, isAuthenticated)
  }

  /** The guard as a component: outside a provider the hook throws. */
  function GuardInContext(context: Option<AuthState>, pathname: string): (r: Result<Decision>)
    ensures r.Err? <==> context.None?
    ensures r.Err? ==> r.message == NoProviderMessage
    ensures r.Ok? ==> r.value == Guard(context.value.isAuthenticated, pathname)
  {
    match UseAuth(context)
    case Err(m) => Err(m)
    case Ok(state) => Ok(Guard(state.isAuthenticated, pathname))
  }

  /** A visitor is never both shown the page and sent away, and nobody is
    * sent away from the login page itself. */
  lemma GuardNeverBothRendersAndRedirects(isAuthenticated: bool, pathname: string)
    ensures !(Guard(isAuthenticated, pathname).rendersChildren && Guard(isAuthenticated, pathname).redirectTo.Some?)
    ensures Guard(isAuthenticated, LoginPath).redirectTo.None?
  {
  }

  /** With a consistent provider, the guard follows the stored token: a
    * token lets the page render, no token sends the visitor to log in. */
  lemma GuardFollowsStoredToken(storage: map<string, string>, isAuthenticated: bool, pathname: string)
    requires isAuthenticated <==> HasToken(storage)
    requires pathname != LoginPath
    ensures Guard(isAuthenticated, pathname).rendersChildren <==> HasToken(storage)
    ensures Guard(isAuthenticated, pathname).redirectTo == Some(LoginPath) <==> !HasToken(storage)
  {
  }
}
