/**
 * The navigation guard `PrivateRoute`: from the session's `loading` flag and `user`, and the
 * role the route requires, it shows the loading screen, redirects to the login route, or
 * renders the protected children. The route table decides which role each route requires.
 */
module PrivateRoute {
  import opened Wrappers
  import opened Records

  /** The router location that is remembered as `from` when a signed-out visitor is sent away. */
  datatype Location = Location(pathname: string)

  /** What the guard renders. `replace` is the `replace` flag of `<Navigate>`. */
  datatype View = LoadingScreen | Redirect(to: string, from: Option<Location>, replace: bool) | Children

  /** `role && ...`: an absent or empty `role` prop means that any signed-in user may pass. */
  predicate RoleRequired(role: Option<string>) {
    role.Some? && role.value != ""
  }

  function Guard(loading: bool, user: Option<User>, role: Option<string>, location: Location): (v: View)
    ensures v == LoadingScreen <==> loading
    ensures v == Children <==> !loading && user.Some? && (!RoleRequired(role) || user.value.role == role.value)
    ensures v.Redirect? ==> v.to == "/" && v.replace
    ensures v.Redirect? && v.from.Some? <==> !loading && user.None?
    ensures v.Redirect? && v.from.Some? ==> v.from.value == location
  {
    if loading then LoadingScreen
    else if user.None? then Redirect("/", Some(location), true)
    else if RoleRequired(role) && (user.value.role != role.value) then Redirect("/", None, true)
    else Children
  }

  /** The protected routes of the application: every admin route needs "Admin" and "/supervisor" needs "Supervisor". */
  function RouteRole(route: string): (role: Option<string>)
    ensures route == "/admin/*" ==> role == Some("Admin")
    ensures route == "/supervisor" ==> role == Some("Supervisor")
  {
    if route == "/admin/*" then Some("Admin")
    else if route == "/supervisor" then Some("Supervisor")
    else None
  }

  /**
   * A signed-in user whose role is not the one a protected route requires is sent to "/"
   * without a `from` location, so a later login does not bring them back.
   */
  lemma WrongRoleIsRedirected(u: User, route: string, location: Location)
    requires route == "/admin/*" || route == "/supervisor"
    requires Some(u.role) != RouteRole(route)
    ensures Guard(false, Some(u), RouteRole(route), location) == Redirect("/", None, true)
  {
  }
}
