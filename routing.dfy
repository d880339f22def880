/** The two route guards (src/components/ProtectedRoute.jsx and
    src/components/PublicRoute.jsx) and the navigation value the screens
    request. `loading` and `isAuthenticated` are what the session context
    reports. */
module Routing {

  /** `navigate(to, { replace })` or `<Navigate to={to} replace />`. */
  datatype Navigation = Navigate(to: string, replace: bool)

  /** What a guard renders. */
  datatype Screen = Waiting | Redirect(target: Navigation) | RenderChildren

  /** A protected view waits while the session is loading, sends an
      unauthenticated viewer to /login (replacing the history entry), and
      renders its children only for an authenticated viewer. */
  function ProtectedRoute(loading: bool, isAuthenticated: bool): (v: Screen)
    ensures v == Waiting <==> loading
    ensures v == Redirect(Navigate("/login", true)) <==> !loading && !isAuthenticated
    ensures v == RenderChildren <==> !loading && isAuthenticated
  {
    if loading then Waiting
    else if !isAuthenticated then Redirect(Navigate("/login", true))
    else RenderChildren
  }

  /** A public-only view (login, signup) waits while the session is loading,
      sends an authenticated viewer to /dashboard (replacing the history entry),
      and renders its children only for an unauthenticated viewer. */
  function PublicRoute(loading: bool, isAuthenticated: bool): (v: Screen)
    ensures v == Waiting <==> loading
    ensures v == Redirect(Navigate("/dashboard", true)) <==> !loading && isAuthenticated
    ensures v == RenderChildren <==> !loading && !isAuthenticated
  {
    if loading then Waiting
    else if isAuthenticated then Redirect(Navigate("/dashboard", true))
    else RenderChildren
  }

  /** Once the session has settled, exactly one of the two guards renders its
      children, and the other redirects; while it loads, neither does. */
  lemma GuardsAreComplementary(loading: bool, isAuthenticated: bool)
    ensures loading ==> ProtectedRoute(loading, isAuthenticated) == PublicRoute(loading, isAuthenticated) == Waiting
    ensures !loading ==>
      (ProtectedRoute(loading, isAuthenticated) == RenderChildren) != (PublicRoute(loading, isAuthenticated) == RenderChildren)
    ensures !loading ==>
      ProtectedRoute(loading, isAuthenticated).Redirect? != PublicRoute(loading, isAuthenticated).Redirect?
  {
  }
}
