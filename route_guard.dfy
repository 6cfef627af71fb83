/**
 * The route guard in front of every dashboard page: with no user it redirects
 * to the login route, replacing the history entry and carrying the location
 * that was asked for; with a user it renders the child routes.
 */
module RouteGuard {
  import opened JsValues
  import opened UserCodec

  /** A router location and the state a navigation attached to it. */
  datatype Location = Location(pathname: string, state: Option<NavState>)

  datatype NavState = NavState(from: Option<Location>)

  /** `<Navigate to state replace />` or `navigate(to, { replace })`. */
  datatype Navigation = Navigation(to: string, replace: bool, state: Option<NavState>)

  datatype GuardOutcome = Redirect(nav: Navigation) | RenderOutlet

  const LoginRoute := "/login"

  /** `RequireAuth`: redirect when there is no user, else render the outlet. */
  function Guard(user: Option<User>, location: Location): (g: GuardOutcome)
    ensures g.RenderOutlet? <==> user.Some?
    ensures g.Redirect? ==> g.nav.to == LoginRoute && g.nav.replace
    ensures g.Redirect? ==> g.nav.state == Some(NavState(Some(location)))
  {
    if user.None? then Redirect(Navigation(LoginRoute, true, Some(NavState(Some(location)))))
    else RenderOutlet
  }

  /** The location the router shows after a navigation. */
  function Arrive(nav: Navigation): Location {
    Location(nav.to, nav.state)
  }
}
