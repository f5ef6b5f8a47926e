/**
 * The login page: the form state (`username`, `password`, `isSubmitting`), the navigation it
 * triggers after `login`, the demo-credential presets, and the `from` location it computes.
 */
module LoginPage {
  import opened Wrappers
  import opened AuthContext
  import PrivateRoute

  /** A call of `navigate(to, { replace })`. */
  datatype Navigation = Navigation(to: string, replace: bool)

  /** Where a successful login lands, by the role of the returned user. */
  function LandingPath(role: string): (path: string)
    ensures path == "/admin" <==> role == "Admin"
    ensures path == "/supervisor" <==> role == "Supervisor"
    ensures path == "/" <==> role != "Admin" && role != "Supervisor"
  {
    if role == "Admin" then "/admin"
    else if role == "Supervisor" then "/supervisor"
    else "/"
  }

  /** `location.state?.from?.pathname || '/'`, where `state` is the `from` the guard remembered. */
  function FromPath(from: Option<PrivateRoute.Location>): (path: string)
    ensures path != ""
    ensures from.Some? && from.value.pathname != "" ==> path == from.value.pathname
    ensures from.None? || from.value.pathname == "" ==> path == "/"
  {
    if from.Some? && from.value.pathname != "" then from.value.pathname else "/"
  }

  /** The preset filled in by `handleDemoLogin(role)`. */
  function DemoCredentials(role: string): (c: (string, string))
    ensures role == "admin" ==> c == ("admin", "admin123")
    ensures role == "supervisor" ==> c == ("supervisor1", "sup123")
    ensures role != "admin" && role != "supervisor" ==> c == ("floor1", "floor123")
  {
    if role == "admin" then ("admin", "admin123")
    else if role == "supervisor" then ("supervisor1", "sup123")
    else ("floor1", "floor123")
  }

  class LoginForm {
    var username: string
    var password: string
    var isSubmitting: bool
    /** Every `navigate` call made so far, oldest first. */
    var navigations: seq<Navigation>
    /** The location the guard remembered, as the page computes it. */
    const from: string

    constructor (state: Option<PrivateRoute.Location>)
      ensures username == "" && password == "" && !isSubmitting && navigations == []
      ensures from == FromPath(state)
    {
      username, password, isSubmitting, navigations := "", "", false, [];
      from := FromPath(state);
    }

    /**
     * `handleSubmit`: calls `login` with the typed credentials; on success navigates, with
     * `replace: true`, to the landing path of the returned role; `from` does not enter the
     * contract, so the target is the same for every remembered location. On failure it
     * navigates nowhere. `isSubmitting` is false again on both paths.
     */
    method HandleSubmit(auth: AuthProvider, response: Result<LoginData>)
      modifies this, auth
      ensures auth.State() == AfterLogin(old(auth.State()), response)
      ensures !isSubmitting && username == old(username) && password == old(password)
      ensures response.Ok? ==> navigations == old(navigations) + [Navigation(LandingPath(response.value.user.role), true)]
      ensures response.Err? ==> navigations == old(navigations)
    {
      isSubmitting := true;
      var r := auth.Login(username, password, response);
      match r {
        case Ok(data) =>
          if data.user.role == "Admin" {
            navigations := navigations + [Navigation("/admin", true)];
          } else if data.user.role == "Supervisor" {
            navigations := navigations + [Navigation("/supervisor", true)];
          } else {
            navigations := navigations + [Navigation("/", true)];
          }
        case Err(_) =>
      }
      isSubmitting := false;
    }

    /** `handleDemoLogin(role)`: fills both fields with the preset and changes nothing else. */
    method HandleDemoLogin(role: string)
      modifies this
      ensures (username, password) == DemoCredentials(role)
      ensures isSubmitting == old(isSubmitting) && navigations == old(navigations)
    {
      if role == "admin" {
        username, password := "admin", "admin123";
      } else if role == "supervisor" {
        username, password := "supervisor1", "sup123";
      } else {
        username, password := "floor1", "floor123";
      }
    }
  }
}
