/** The route guard (src/components/ProtectedRoute.tsx): a decision on the
    auth store's `isLoading` and `user`, the route's `requireAdmin` flag and
    the current location. */
module ProtectedRoute {
  import opened Types
  import opened Routing

  /** What the guard renders. */
  datatype GuardView = LoadingScreen | Redirect(nav: Navigation) | Children

  const LoginPath := "/login"
  const DashboardPath := "/dashboard"

  /** The guard's `if` chain: loading first, then no user, then a
      non-admin on an admin route; otherwise the protected page. */
  function Decide(isLoading: bool, user: Option<User>, requireAdmin: bool, location: Location): (v: GuardView)
    ensures v == LoadingScreen <==> isLoading
    ensures v == Children <==> !isLoading && user.Some? && (!requireAdmin || user.value.isAdmin)
    ensures v.Redirect? && v.nav.to == LoginPath <==> !isLoading && user.None?
    ensures v.Redirect? && v.nav.to == DashboardPath <==>
              !isLoading && user.Some? && requireAdmin && !user.value.isAdmin
    ensures v.Redirect? ==> v.nav.replace && (v.nav.to == LoginPath || v.nav.to == DashboardPath)
    ensures v.Redirect? && v.nav.to == LoginPath ==> v.nav.state == Some(NavState(Some(location)))
    ensures v.Redirect? && v.nav.to == DashboardPath ==> v.nav.state == None
  {
    if isLoading then LoadingScreen
    else if user.None? then Redirect(Navigation(LoginPath, Some(NavState(Some(location))), true))
    else if requireAdmin && !user.value.isAdmin then Redirect(Navigation(DashboardPath, None, true))
    else Children
  }

  /** The guard as most routes use it, with `requireAdmin` left at its
      default of false: every signed-in user gets the page once loading
      is over. */
  function DecideDefault(isLoading: bool, user: Option<User>, location: Location): (v: GuardView)
    ensures !isLoading && user.Some? ==> v == Children
    ensures v == Decide(isLoading, user, false, location)
  {
    Decide(isLoading, user, false, location)
  }
}
