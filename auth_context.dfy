/**
 * The client session held by `AuthProvider`: the signed-in `user`, the `loading` flag, the
 * last `error` message, and the bearer token kept in the browser's local storage under the
 * key "token". The mount-time validation, `login` and `logout` are the only transitions.
 * The network calls (`GET /api/auth/me`, `POST /api/auth/login`) are not modelled: their
 * outcomes are parameters.
 */
module AuthContext {
  import opened Wrappers
  import opened Records

  const SessionExpired: string := "Session expired. Please login again."
  const InvalidCredentials: string := "Invalid credentials"

  /** The body of a successful `POST /api/auth/login` response. */
  datatype LoginData = LoginData(token: string, user: User)

  /**
   * Everything the provider holds; `token` is the local-storage entry (None when absent) and
   * `validating` records that the mount effect's validation request has not settled yet.
   */
  datatype Session = Session(user: Option<User>, loading: bool, error: Option<string>, token: Option<string>, validating: bool)

  /** The three phases a session moves through. */
  datatype Phase = Loading | Authenticated(user: User) | Unauthenticated

  function PhaseOf(s: Session): Phase {
    if s.loading then Loading
    else if s.user.Some? then Authenticated(s.user.value)
    else Unauthenticated
  }

  /** `if (token)`: a stored token counts only when it is a non-empty string. */
  predicate HasToken(token: Option<string>) {
    token.Some? && token.value != ""
  }

  /** The provider's first render: `useState(null)`, `useState(true)`, `useState(null)`. */
  function Initial(stored: Option<string>): (s: Session)
    ensures PhaseOf(s) == Loading && s.loading && s.user.None? && s.error.None? && !s.validating
    ensures s.token == stored
  {
    Session(None, true, None, stored, false)
  }

  /**
   * The mount effect's synchronous part: with no token loading ends at once and no request is
   * made; with one, the validation request `GET /api/auth/me` is sent and loading goes on.
   */
  function StartMount(s: Session): (r: Session)
    ensures !HasToken(s.token) ==> r == s.(loading := false)
    ensures HasToken(s.token) ==> r == s.(validating := true)
  {
    if HasToken(s.token) then s.(validating := true) else s.(loading := false)
  }

  /**
   * The validation request settling: on success the user is set; on failure the stored token is
   * removed and the session is reported as expired; loading ends either way. Without a request
   * in flight nothing happens.
   */
  function SettleValidation(s: Session, validation: Result<User>): (r: Session)
    ensures !s.validating ==> r == s
    ensures s.validating ==> !r.loading && !r.validating
    ensures s.validating && validation.Ok? ==>
              r.user == Some(validation.value) && r.token == s.token && r.error == s.error
    ensures s.validating && validation.Err? ==>
              r.token.None? && r.error == Some(SessionExpired) && r.user == s.user
  {
    if !s.validating then s
    else
      match validation
      case Ok(u) => s.(user := Some(u), loading := false, validating := false)
      case Err(_) => s.(token := None, error := Some(SessionExpired), loading := false, validating := false)
  }

  /**
   * `login`: the error is cleared first; a response stores exactly its token and user, a
   * rejection records "Invalid credentials" and leaves the token and user as they were.
   * `loading` is not touched.
   */
  function AfterLogin(s: Session, response: Result<LoginData>): (r: Session)
    ensures r.loading == s.loading && r.validating == s.validating
    ensures response.Ok? ==> r.token == Some(response.value.token) && r.user == Some(response.value.user) && r.error.None?
    ensures response.Err? ==> r.token == s.token && r.user == s.user && r.error == Some(InvalidCredentials)
  {
    match response
    case Ok(data) => s.(error := None, token := Some(data.token), user := Some(data.user))
    case Err(_) => s.(error := Some(InvalidCredentials))
  }

  /** `logout`: client side only, the token is removed and user and error are cleared. */
  function AfterLogout(s: Session): (r: Session)
    ensures r.token.None? && r.user.None? && r.error.None? && r.loading == s.loading && r.validating == s.validating
    ensures !s.loading ==> PhaseOf(r) == Unauthenticated
  {
    s.(token := None, user := None, error := None)
  }

  /** A user is only ever held together with a stored token. */
  ghost predicate Consistent(s: Session) {
    s.user.Some? ==> s.token.Some?
  }

  /** The whole mount effect when nothing else happens in between. */
  function Mount(stored: Option<string>, validation: Result<User>): Session {
    SettleValidation(StartMount(Initial(stored)), validation)
  }

  /**
   * The mount effect always ends loading: Authenticated exactly when a non-empty stored token
   * validates, and with the "session expired" error exactly when one fails to.
   */
  lemma MountOutcome(stored: Option<string>, v: Result<User>)
    ensures PhaseOf(Mount(stored, v)) != Loading
    ensures PhaseOf(Mount(stored, v)) == (if HasToken(stored) && v.Ok? then Authenticated(v.value) else Unauthenticated)
    ensures Mount(stored, v).error == (if HasToken(stored) && v.Err? then Some(SessionExpired) else None)
    ensures Mount(stored, v).token == (if HasToken(stored) && v.Err? then None else stored)
  {
  }

  /**
   * Login, logout and the start of the mount effect keep `Consistent`; the settling validation
   * keeps it when nothing else ran while the request was in flight.
   */
  lemma ConsistentKept(stored: Option<string>, s: Session, v: Result<User>, resp: Result<LoginData>)
    ensures Consistent(Initial(stored))
    ensures Consistent(s) ==> Consistent(StartMount(s)) && Consistent(AfterLogin(s, resp)) && Consistent(AfterLogout(s))
    ensures Consistent(Mount(stored, v))
  {
  }

  /**
   * The provider itself does not order the two requests: a `login` call that completes while
   * the stored token is still being validated, followed by that validation failing, leaves a
   * signed-in user whose token has been removed from storage. The application's own screens
   * never make that call while loading (see `UiReachableConsistent`).
   */
  lemma LoginThenExpiredValidation(stale: string, data: LoginData, message: string)
    requires stale != ""
    ensures var s := SettleValidation(AfterLogin(StartMount(Initial(Some(stale))), Ok(data)), Err(message));
            s.user == Some(data.user) && s.token.None? && !Consistent(s)
  {
  }

  /**
   * What the application's screens can do to the session. The mount effect runs once, while the
   * first loading is on; the login form and the logout buttons are rendered only once loading
   * is over, because the login page shows its loading screen and the guard its own until then.
   */
  datatype Event = MountEvent | SettleEvent(validation: Result<User>) | LoginEvent(response: Result<LoginData>) | LogoutEvent

  predicate Enabled(s: Session, e: Event) {
    match e
    case MountEvent => s.loading && !s.validating
    case SettleEvent(_) => true
    case LoginEvent(_) => !s.loading
    case LogoutEvent => !s.loading
  }

  function Apply(s: Session, e: Event): Session {
    match e
    case MountEvent => StartMount(s)
    case SettleEvent(v) => SettleValidation(s, v)
    case LoginEvent(r) => AfterLogin(s, r)
    case LogoutEvent => AfterLogout(s)
  }

  /** The session after the enabled events of `events`, in order; a disabled event has no effect. */
  function Run(s: Session, events: seq<Event>): Session
    decreases |events|
  {
    if events == [] then s
    else Run(if Enabled(s, events[0]) then Apply(s, events[0]) else s, events[1..])
  }

  /** The invariant behind `UiReachableConsistent`: while loading there is no user, and a validation in flight has a token. */
  ghost predicate UiInvariant(s: Session) {
    && Consistent(s)
    && (s.loading ==> s.user.None?)
    && (s.validating ==> s.loading && s.token.Some?)
  }

  lemma UiInvariantKept(s: Session, e: Event)
    requires UiInvariant(s) && Enabled(s, e)
    ensures UiInvariant(Apply(s, e))
  {
  }

  /**
   * Every session the screens can reach from any stored token holds a user only together with
   * a token: the race of `LoginThenExpiredValidation` cannot arise through them.
   */
  lemma {:induction false} UiReachableConsistent(stored: Option<string>, events: seq<Event>)
    ensures Consistent(Run(Initial(stored), events))
  {
    RunKeepsInvariant(Initial(stored), events);
  }

  lemma {:induction false} RunKeepsInvariant(s: Session, events: seq<Event>)
    requires UiInvariant(s)
    ensures UiInvariant(Run(s, events))
    decreases |events|
  {
    if events != [] {
      var next := if Enabled(s, events[0]) then Apply(s, events[0]) else s;
      if Enabled(s, events[0]) {
        UiInvariantKept(s, events[0]);
      }
      RunKeepsInvariant(next, events[1..]);
    }
  }

  /** Logging out twice is the same as logging out once. */
  lemma LogoutIdempotent(s: Session)
    ensures AfterLogout(AfterLogout(s)) == AfterLogout(s)
  {
  }

  /** A failed login keeps the phase the session was in. */
  lemma FailedLoginKeepsPhase(s: Session, message: string)
    ensures PhaseOf(AfterLogin(s, Err(message))) == PhaseOf(s)
  {
  }

  /** The provider object: React state plus the local-storage entry, updated in place. */
  class AuthProvider {
    var user: Option<User>
    var loading: bool
    var error: Option<string>
    var token: Option<string>

    var validating: bool

    function State(): Session
      reads this
    {
      Session(user, loading, error, token, validating)
    }

    constructor (stored: Option<string>)
      ensures State() == Initial(stored)
    {
      user, loading, error, token, validating := None, true, None, stored, false;
    }

    /** The mount `useEffect`: reads the stored token and either ends loading or sends the request. */
    method MountEffect()
      modifies this
      ensures State() == StartMount(old(State()))
    {
      if token.Some? && token.value != "" {
        validating := true;
      } else {
        loading := false;
      }
    }

    /** The `.then`/`.catch`/`.finally` of the validation request. */
    method ValidationSettled(validation: Result<User>)
      modifies this
      ensures State() == SettleValidation(old(State()), validation)
    {
      if validating {
        match validation {
          case Ok(u) =>
            user := Some(u);
          case Err(_) =>
            token := None;
            error := Some(SessionExpired);
        }
        loading := false;
        validating := false;
      }
    }

    /** `login(username, password)`: returns the response data, or rethrows the rejection. */
    method Login(username: string, password: string, response: Result<LoginData>) returns (r: Result<LoginData>)
      modifies this
      ensures State() == AfterLogin(old(State()), response)
      ensures r == response
    {
      error := None;
      match response {
        case Ok(data) =>
          token := Some(data.token);
          user := Some(data.user);
          r := Ok(data);
        case Err(message) =>
          error := Some(InvalidCredentials);
          r := Err(message);
      }
    }

    method Logout()
      modifies this
      ensures State() == AfterLogout(old(State()))
    {
      token := None;
      user := None;
      error := None;
    }
  }
}
