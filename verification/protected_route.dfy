/** The route guard: pages behind it render only when the auth slice's
    status is true; otherwise the router is sent to the sign-in page,
    replacing the current history entry. */
module ProtectedRoute {

  import opened Types
  import opened AuthSlice

  datatype RouteResult = Redirect(to: string, replace: bool) | RenderChildren

  function Guard(auth: AuthState): (r: RouteResult)
    ensures r == RenderChildren <==> auth.status
    ensures r.Redirect? ==> r.to == "/signin" && r.replace
  {
    if !auth.status then Redirect("/signin", true) else RenderChildren
  }

  /** The decision reads the status only, never the user data. */
  lemma GuardIgnoresUserData(a: AuthState, b: AuthState)
    requires a.status == b.status
    ensures Guard(a) == Guard(b)
  {
  }

  /** From the initial state the guard redirects; after any dispatched auth
      action, a logout included, it admits. */
  lemma GuardAfterActions(actions: seq<AuthAction>)
    ensures actions == [] ==> Guard(Run(Initial, actions)) == Redirect("/signin", true)
    ensures actions != [] ==> Guard(Run(Initial, actions)) == RenderChildren
  {
    RunStatus(Initial, actions);
  }

  /** A logout does not lock the protected pages, even with a null payload. */
  lemma LogoutStillAdmits(s: AuthState)
    ensures Guard(Reduce(s, LogoutUser(None))) == RenderChildren
    ensures Guard(ReduceCorrected(s, LogoutUser(None))) == Redirect("/signin", true)
  {
  }
}
