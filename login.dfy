/** The login page (src/pages/Login.tsx): where a signed-in user is sent,
    and which message a failed login shows. */
module Login {
  import opened Types
  import opened Routing
  import AuthProvider
  import ProtectedRoute
  import AxiosClient

  const AdminPath := "/admin"
  const InvalidCredentialsMessage := "Invalid email or password"
  const RequestFailedMessage := "An error occurred. Please try again."
  const UnexpectedMessage := "An unexpected error occurred"

  /** The path saved in the location's `from` state, when there is one and
      it is not empty. */
  function SavedFrom(location: Location): (p: Option<string>)
    ensures p.Some? ==> p.value != ""
    ensures p.Some? <==>
              location.state.Some? && location.state.value.from.Some?
              && location.state.value.from.value.pathname != ""
    ensures p.Some? ==> p.value == location.state.value.from.value.pathname
  {
    match location.state
    case Some(NavState(Some(from))) => if from.pathname != "" then Some(from.pathname) else None
    case _ => None
  }

  /** The redirect effect: nothing without a user; an admin always goes to
      `/admin`; anyone else back to where the guard caught them, or to the
      dashboard. Both navigations replace the history entry. */
  function RedirectAfterLogin(user: Option<User>, location: Location): (nav: Option<Navigation>)
    ensures nav.None? <==> user.None?
    ensures nav.Some? ==> nav.value.replace && nav.value.state.None?
    ensures user.Some? && user.value.isAdmin ==> nav.value.to == AdminPath
    ensures user.Some? && !user.value.isAdmin && SavedFrom(location).Some? ==>
              nav.value.to == SavedFrom(location).value
    ensures user.Some? && !user.value.isAdmin && SavedFrom(location).None? ==>
              nav.value.to == ProtectedRoute.DashboardPath
  {
    match user
    case None => None
    case Some(u) =>
      if u.isAdmin then Some(Navigation(AdminPath, None, true))
      else
        var from := match SavedFrom(location) case Some(p) => p case None => ProtectedRoute.DashboardPath;
        Some(Navigation(from, None, true))
  }

  /** The toast `handleSubmit` shows for an error `login` re-raised. */
  function LoginErrorMessage(e: Thrown): (msg: string)
    ensures msg == InvalidCredentialsMessage <==> e.AxiosError? && e.status == Some(401)
    ensures msg == RequestFailedMessage <==> e.AxiosError? && e.status != Some(401)
    ensures msg == UnexpectedMessage <==> !e.AxiosError?
  {
    match e
    case AxiosError(status) => if status == Some(401) then InvalidCredentialsMessage else RequestFailedMessage
    case _ => UnexpectedMessage
  }

  /** `handleSubmit`: calls the store's `login` with the form fields and
      answers with the toast to show, if any. */
  method HandleSubmit(auth: AuthProvider.AuthStore, email: string, password: string, reply: Outcome<User>)
    returns (toast: Option<string>)
    modifies auth
    ensures auth.State() == AuthProvider.LoginStep(old(auth.State()), LoginData(email, password), reply).state
    ensures toast == if reply.Failure? then Some(LoginErrorMessage(reply.thrown)) else None
  {
    var rethrown := auth.Login(LoginData(email, password), reply);
    match rethrown {
      case None => toast := None;
      case Some(e) => toast := Some(LoginErrorMessage(e));
    }
  }

  /** The guard and this page together: a visitor the guard sends to
      `/login` from a non-empty path, and who then signs in as a non-admin
      on that same page, is sent back to that path; an admin is sent to
      `/admin` instead. This holds only while the page is not reloaded: see
      `SessionCheck401LosesOrigin`. */
  lemma GuardThenLoginReturnsToOrigin(origin: Location, loginSearch: string, loginHash: string, u: User)
    requires origin.pathname != ""
    ensures ProtectedRoute.Decide(false, None, false, origin).Redirect?
    ensures
      var nav := ProtectedRoute.Decide(false, None, false, origin).nav;
      var here := Location(nav.to, loginSearch, loginHash, nav.state);
      RedirectAfterLogin(Some(u), here).value.to == if u.isAdmin then AdminPath else origin.pathname
  {
  }

  /** A session check answered by a 401 on any page whose path does not
      contain `/login` makes the interceptor load `/login` afresh. The
      location it loads carries no navigation state, so a non-admin who
      then signs in goes to `/dashboard`, not back to the page. */
  lemma SessionCheck401LosesOrigin(origin: Location, loginSearch: string, loginHash: string, u: User)
    requires !AxiosClient.Contains(origin.pathname, AxiosClient.LoginPath)
    ensures AxiosClient.Intercept<User>(Failure(AxiosError(Some(401))), origin.pathname).redirect == Some(ProtectedRoute.LoginPath)
    ensures
      var reloaded := Location(ProtectedRoute.LoginPath, loginSearch, loginHash, None);
      RedirectAfterLogin(Some(u), reloaded).value.to == if u.isAdmin then AdminPath else ProtectedRoute.DashboardPath
  {
  }

  /** A wrong password typed on the login page: the interceptor sees the 401
      on `/login` and does not redirect, and the page says the credentials
      were invalid. */
  lemma WrongPasswordStaysOnLoginPage(auth: AuthProvider.AuthState, data: LoginData)
    ensures
      var reply: Outcome<User> := Failure(AxiosError(Some(401)));
      && AxiosClient.Intercept(reply, AxiosClient.LoginPath).redirect.None?
      && AuthProvider.LoginStep(auth, data, reply).rethrown == Some(reply.thrown)
      && LoginErrorMessage(reply.thrown) == InvalidCredentialsMessage
  {
    AxiosClient.NoRedirectOnLoginPaths<User>(Failure(AxiosError(Some(401))), AxiosClient.LoginPath, 0);
  }
}
