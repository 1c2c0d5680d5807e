/** The route guard that wraps the signed-in pages. */
module ProtectedRoute {
  import opened Wrappers

  const SignInRoute := "/auth/sign-in"

  /** What the guard renders: nothing, a redirect, or the children as given. */
  datatype RouteOutcome<C> = RenderNothing | Redirect(to: string, replace: bool) | Render(children: C)

  /**
   * While the session is loading nothing is rendered; after that, no user means a
   * replacing redirect to the sign-in page, and a user means the children.
   */
  function Guard<C>(loading: bool, user: Option<string>, children: C): (r: RouteOutcome<C>)
    ensures loading <==> r.RenderNothing?
    ensures r.Redirect? <==> !loading && user.None?
    ensures r.Render? <==> !loading && user.Some?
    ensures r.Redirect? ==> r.to == SignInRoute && r.replace
    ensures r.Render? ==> r.children == children
  {
    if loading then RenderNothing
    else if user.None? then Redirect(SignInRoute, true)
    else Render(children)
  }

  /** Only whether there is a user matters, not who it is. */
  lemma GuardDependsOnPresenceOnly<C>(loading: bool, u1: Option<string>, u2: Option<string>, children: C)
    requires u1.Some? == u2.Some?
    ensures Guard(loading, u1, children) == Guard(loading, u2, children)
  {
  }
}
