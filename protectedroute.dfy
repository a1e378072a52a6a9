/** The route guard: while the session is being restored it shows the
    loader, a guest is sent to the login page, a non-admin on an admin route
    is sent home, and everyone else gets the page. */
module ProtectedRoute {
  import opened Common
  import opened Accounts
  import opened App

  datatype Outcome = ShowLoader | RedirectTo(path: string) | RenderPage

  function Decide(loading: bool, user: Option<User>, adminOnly: bool): (o: Outcome)
    ensures loading ==> o == ShowLoader
    ensures !loading && user.None? ==> o == RedirectTo("/login")
    ensures !loading && user.Some? && adminOnly && user.value.role != AdminRole ==> o == RedirectTo("/")
    ensures o == RenderPage <==> !loading && user.Some? && (!adminOnly || user.value.role == AdminRole)
  {
    if loading then ShowLoader
    else if user.None? then RedirectTo("/login")
    else if adminOnly && user.value.role != AdminRole then RedirectTo("/")
    else RenderPage
  }

  /** What a path shows for a session: the guard of its route decides, an
      open route always renders, and a path without a route renders
      nothing. */
  function Visit(path: string, loading: bool, user: Option<User>): (o: Option<Outcome>)
    ensures RouteGuard(path).None? <==> o.None?
    ensures RouteGuard(path) == Some(Open) ==> o == Some(RenderPage)
  {
    match RouteGuard(path)
    case None => None
    case Some(Open) => Some(RenderPage)
    case Some(SignedIn) => Some(Decide(loading, user, false))
    case Some(AdminOnly) => Some(Decide(loading, user, true))
  }

  /** An admin page renders only for an admin, a signed-in page for any
      signed-in user whatever the role, and a guest reaching either is sent
      to the login page once the session is known. */
  lemma GuardsHold(path: string, loading: bool, user: Option<User>)
    ensures RouteGuard(path) == Some(AdminOnly) && Visit(path, loading, user) == Some(RenderPage) ==>
      user.Some? && user.value.role == AdminRole
    ensures RouteGuard(path) == Some(SignedIn) && !loading && user.Some? ==>
      Visit(path, loading, user) == Some(RenderPage)
    ensures RouteGuard(path).Some? && RouteGuard(path) != Some(Open) && !loading && user.None? ==>
      Visit(path, loading, user) == Some(RedirectTo("/login"))
  {
  }
}
