/**
 * The login page: its two fields, the submit guard, the error it shows and the redirect once the
 * session is authenticated.
 */
module LoginPage {
  import opened Wrappers
  import opened Models
  import opened Http
  import opened AuthSlice
  import opened AuthApi
  import opened MainLayout
  import opened ProtectedRoute

  /** The page's `username` and `password` state. */
  class LoginForm {
    var username: string
    var password: string

    constructor ()
      ensures username == "admin" && password == "password"
    {
      username := "admin";
      password := "password";
    }

    method SetUsername(v: string)
      modifies this
      ensures username == v && password == old(password)
    {
      username := v;
    }

    method SetPassword(v: string)
      modifies this
      ensures password == v && username == old(username)
    {
      password := v;
    }
  }

  /** `if (username && password)`: both fields must be non-empty. */
  function CanSubmit(username: string, password: string): (ok: bool)
    ensures ok <==> |username| > 0 && |password| > 0
  {
    username != "" && password != ""
  }

  /** `handleSubmit`: the login runs, with the form's credentials, only when both fields are filled in. */
  method Submit(form: LoginForm, session: Session, login: LoginResponse, profile: ProfileResponse)
    returns (dispatched: seq<Action>)
    modifies session
    ensures CanSubmit(form.username, form.password) ==>
              dispatched == LoginDispatches(Credentials(form.username, form.password), login, profile)
    ensures !CanSubmit(form.username, form.password) ==> dispatched == []
    ensures session.State() == Run(old(session.State()), dispatched)
  {
    if form.username != "" && form.password != "" {
      var headers;
      dispatched, headers := LoginFlow(session, Credentials(form.username, form.password), login, profile);
    } else {
      dispatched := [];
    }
  }

  /** The login mutation's own error: set only when the login request itself was rejected. */
  function MutationError(login: LoginResponse): (e: Option<ApiError>)
    ensures e.Some? <==> login.LoginRejected?
  {
    if login.LoginRejected? then Some(login.error) else None
  }

  /** `error ? data?.detail || error.error : null`. */
  function ErrorMessage(login: LoginResponse): (m: Option<string>)
    ensures login.LoginOk? ==> m.None?
    ensures login.LoginRejected? && TruthyString(Detail(login.error)) ==> m == Detail(login.error)
    ensures login.LoginRejected? && !TruthyString(Detail(login.error)) ==> m == login.error.error
  {
    DetailOrError(MutationError(login))
  }

  /** `if (isAuthenticated) navigate('/dashboard')`. */
  function RedirectEffect(s: AuthState): (n: Option<Navigation>)
    ensures n.Some? <==> s.isAuthenticated
    ensures n.Some? ==> n.value == Navigation("/dashboard", false)
  {
    if s.isAuthenticated then Some(Navigation("/dashboard", false)) else None
  }

  /** A successful login moves on to the dashboard. */
  lemma SuccessfulLoginRedirects(s: AuthState, c: Credentials, t: string, u: User)
    ensures RedirectEffect(Run(s, LoginDispatches(c, LoginOk(t), ProfileOk(u)))) == Some(Navigation("/dashboard", false))
  {
    LoginSucceeds(s, c, t, u);
  }

  /**
   * When the token is granted but the profile fetch fails, the page first moves on: the
   * provisional `loginSuccess` authenticates the session as a requester named after the typed
   * username, so the redirect effect navigates to `/dashboard` and the guard renders it. The
   * later `loginFailure` then de-authenticates the session, the guard sends the user back to
   * `/login`, and the page shows no error there: the failure reaches only the session's `error`,
   * which this page does not read.
   */
  lemma ProfileFailureBouncesBack(s: AuthState, c: Credentials, t: string, e: ApiError)
    ensures var acts := LoginDispatches(c, LoginOk(t), ProfileRejected(e));
            var mid := Run(s, acts[..2]);
            mid.user == Some(ProvisionalUser(c.username)) && mid.user.value.role == Requester &&
            RedirectEffect(mid) == Some(Navigation("/dashboard", false)) &&
            Decide(mid, Idle) == RenderOutlet
    ensures var final := Run(s, LoginDispatches(c, LoginOk(t), ProfileRejected(e)));
            RedirectEffect(final) == None && Decide(final, Idle) == RedirectToLogin &&
            final.error == Some(LoginErrorMessage(e))
    ensures ErrorMessage(LoginOk(t)) == None
  {
    var acts := LoginDispatches(c, LoginOk(t), ProfileRejected(e));
    assert acts[..2] == [LoginStart, LoginSuccess(ProvisionalUser(c.username), t)];
    RunTwo(s, LoginStart, LoginSuccess(ProvisionalUser(c.username), t));
    LoginFails(s, c, LoginOk(t), ProfileRejected(e));
  }
}
