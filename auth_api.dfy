/**
 * The `authApi` binding: the login, profile, logout and register endpoints, and the dispatch
 * sequences that login and logout drive on the session store. The outcome of each remote call is
 * an input.
 */
module AuthApi {
  import opened Wrappers
  import opened Models
  import opened Http
  import opened AuthSlice

  datatype Credentials = Credentials(username: string, password: string)

  function CredentialsBody(c: Credentials): Record {
    map["username" := Str(c.username), "password" := Str(c.password)]
  }

  /** `login`: a POST of the credentials to `auth/token/login/`. */
  function LoginQuery(c: Credentials): (r: Request)
    ensures r == Request("http://127.0.0.1:8000/api/v1/auth/token/login/", POST, Some(CredentialsBody(c)))
  {
    Request(ApiBase + "auth/token/login/", POST, Some(CredentialsBody(c)))
  }

  /** `getUserProfile`: a GET of `auth/users/me/`. */
  function ProfileQuery(): (r: Request)
    ensures r == Request("http://127.0.0.1:8000/api/v1/auth/users/me/", GET, None)
  {
    Request(ApiBase + "auth/users/me/", GET, None)
  }

  /** `logout`: a POST to `auth/token/logout/` without a body. */
  function LogoutQuery(): (r: Request)
    ensures r == Request("http://127.0.0.1:8000/api/v1/auth/token/logout/", POST, None)
  {
    Request(ApiBase + "auth/token/logout/", POST, None)
  }

  /** `register`: a POST of the new user to `auth/users/`. */
  function RegisterQuery(userData: Record): (r: Request)
    ensures r == Request("http://127.0.0.1:8000/api/v1/auth/users/", POST, Some(userData))
  {
    Request(ApiBase + "auth/users/", POST, Some(userData))
  }

  datatype LoginResponse = LoginOk(authToken: string) | LoginRejected(error: ApiError)

  datatype ProfileResponse = ProfileOk(profile: User) | ProfileRejected(error: ApiError)

  /** The placeholder identity dispatched as soon as the token arrives. */
  function ProvisionalUser(username: string): (u: User)
    ensures u.id == "" && u.username == username && u.email == "" && u.role == Requester
  {
    User("", username, "", None, None, Requester, None, None, None, None)
  }

  const InvalidCredentials := "Credenciales inválidas."

  /** `non_field_errors[0] || detail || 'Credenciales inválidas.'` */
  function LoginErrorMessage(e: ApiError): (m: string)
    ensures TruthyString(FirstNonFieldError(e)) ==> m == FirstNonFieldError(e).value
    ensures !TruthyString(FirstNonFieldError(e)) && TruthyString(Detail(e)) ==> m == Detail(e).value
    ensures !TruthyString(FirstNonFieldError(e)) && !TruthyString(Detail(e)) ==> m == InvalidCredentials
    ensures m != ""
  {
    if TruthyString(FirstNonFieldError(e)) then FirstNonFieldError(e).value
    else if TruthyString(Detail(e)) then Detail(e).value
    else InvalidCredentials
  }

  /**
   * What `catch (error)` receives when `await queryFulfilled` rejects: the query library's wrapper
   * `{error, isUnhandledError, meta}`, which holds the request's error one level down. The wrapper
   * itself has no `data`, no `status` and no transport text, so every `error?.data?…` read on it
   * is `undefined`.
   */
  function QueryFulfilledRejection(e: ApiError): (w: ApiError)
    ensures w.data.None? && w.status.None? && w.error.None?
  {
    ApiError(None, None, None)
  }

  /** A rejected login request always records the fixed text, whatever the server answered. */
  lemma RejectedLoginStoresFixedText(e: ApiError)
    ensures LoginErrorMessage(QueryFulfilledRejection(e)) == InvalidCredentials
  {
  }

  /** The actions `login`'s `onQueryStarted` dispatches, in order. */
  function LoginDispatches(c: Credentials, login: LoginResponse, profile: ProfileResponse): (acts: seq<Action>)
    ensures 2 <= |acts| <= 3 && acts[0] == LoginStart
    ensures acts[|acts| - 1].LoginFailure? <==> login.LoginRejected? || profile.ProfileRejected?
    ensures login.LoginOk? ==> acts[1] == LoginSuccess(ProvisionalUser(c.username), login.authToken)
    ensures login.LoginRejected? ==> acts == [LoginStart, LoginFailure(InvalidCredentials)]
    ensures login.LoginOk? && profile.ProfileRejected? ==> acts[2] == LoginFailure(LoginErrorMessage(profile.error))
  {
    match login
    case LoginRejected(e) => [LoginStart, LoginFailure(LoginErrorMessage(QueryFulfilledRejection(e)))]
    case LoginOk(t) =>
      match profile
      case ProfileOk(u) => [LoginStart, LoginSuccess(ProvisionalUser(c.username), t), LoginSuccess(u, t)]
      case ProfileRejected(e) => [LoginStart, LoginSuccess(ProvisionalUser(c.username), t), LoginFailure(LoginErrorMessage(e))]
  }

  /** Dispatching two or three actions, unfolded. */
  lemma RunTwo(s: AuthState, a: Action, b: Action)
    ensures Run(s, [a, b]) == Apply(Apply(s, a), b)
  {
    assert [a, b][1..] == [b];
    assert [b][1..] == [];
    assert Run(Apply(Apply(s, a), b), []) == Apply(Apply(s, a), b);
    assert Run(Apply(s, a), [b]) == Run(Apply(Apply(s, a), b), []);
  }

  lemma RunThree(s: AuthState, a: Action, b: Action, c: Action)
    ensures Run(s, [a, b, c]) == Apply(Apply(Apply(s, a), b), c)
  {
    assert [a, b, c][1..] == [b, c];
    RunTwo(Apply(s, a), b, c);
  }

  /** A successful login ends authenticated as the fetched profile, with the token persisted. */
  lemma LoginSucceeds(s: AuthState, c: Credentials, t: string, u: User)
    ensures Run(s, LoginDispatches(c, LoginOk(t), ProfileOk(u))) ==
            AuthState(Some(u), Some(t), true, false, None, Some(t))
  {
    RunThree(s, LoginStart, LoginSuccess(ProvisionalUser(c.username), t), LoginSuccess(u, t));
  }

  /**
   * A rejected login, or a rejected profile fetch after the provisional success, ends logged out.
   * The recorded message is the fixed text for a rejected login (the wrapper has no `data`) and
   * the server's message for a rejected profile fetch (`.unwrap()` throws the request's error).
   */
  lemma LoginFails(s: AuthState, c: Credentials, login: LoginResponse, profile: ProfileResponse)
    requires login.LoginRejected? || profile.ProfileRejected?
    ensures var m := if login.LoginRejected? then InvalidCredentials else LoginErrorMessage(profile.error);
            Run(s, LoginDispatches(c, login, profile)) ==
            AuthState(None, None, false, false, Some(m), None)
  {
    match login
    case LoginRejected(e) =>
      RejectedLoginStoresFixedText(e);
      RunTwo(s, LoginStart, LoginFailure(InvalidCredentials));
    case LoginOk(t) =>
      RunThree(s, LoginStart, LoginSuccess(ProvisionalUser(c.username), t), LoginFailure(LoginErrorMessage(profile.error)));
  }

  /** The outcome of a login never depends on the session it started from. */
  lemma LoginOverwritesSession(s1: AuthState, s2: AuthState, c: Credentials, login: LoginResponse, profile: ProfileResponse)
    ensures Run(s1, LoginDispatches(c, login, profile)) == Run(s2, LoginDispatches(c, login, profile))
  {
    if login.LoginOk? && profile.ProfileOk? {
      LoginSucceeds(s1, c, login.authToken, profile.profile);
      LoginSucceeds(s2, c, login.authToken, profile.profile);
    } else {
      LoginFails(s1, c, login, profile);
      LoginFails(s2, c, login, profile);
    }
  }

  /**
   * `login`'s `onQueryStarted`. Returns the actions dispatched and, when the profile was requested,
   * the headers `prepareHeaders` gave that request (it reads the token the provisional success stored).
   */
  method LoginFlow(session: Session, c: Credentials, login: LoginResponse, profile: ProfileResponse)
    returns (dispatched: seq<Action>, profileHeaders: Option<Headers>)
    modifies session
    ensures dispatched == LoginDispatches(c, login, profile)
    ensures session.State() == Run(old(session.State()), dispatched)
    ensures login.LoginOk? ==> profileHeaders == Some(PrepareHeaders(map[], Some(login.authToken)))
    ensures login.LoginRejected? ==> profileHeaders == None
  {
    ghost var s0 := session.State();
    session.LoginStart();
    ghost var s1 := session.State();
    match login {
      case LoginRejected(e) =>
        var m := LoginErrorMessage(QueryFulfilledRejection(e));
        session.LoginFailure(m);
        dispatched := [Action.LoginStart, Action.LoginFailure(m)];
        profileHeaders := None;
        RunTwo(s0, dispatched[0], dispatched[1]);
      case LoginOk(t) =>
        var provisional := ProvisionalUser(c.username);
        session.LoginSuccess(provisional, t);
        ghost var s2 := session.State();
        profileHeaders := Some(PrepareHeaders(map[], session.token));
        var last: Action;
        match profile {
          case ProfileOk(u) =>
            session.LoginSuccess(u, t);
            last := Action.LoginSuccess(u, t);
          case ProfileRejected(e) =>
            var m := LoginErrorMessage(e);
            session.LoginFailure(m);
            last := Action.LoginFailure(m);
        }
        dispatched := [Action.LoginStart, Action.LoginSuccess(provisional, t), last];
        RunThree(s0, dispatched[0], dispatched[1], dispatched[2]);
    }
  }

  /**
   * `logout`'s `onQueryStarted`: the logout reducer runs whether the server call succeeded or not.
   * Returns the headers the logout request carried (the token of the session being closed).
   */
  method LogoutFlow(session: Session, serverSucceeded: bool)
    returns (dispatched: seq<Action>, requestHeaders: Headers)
    modifies session
    ensures dispatched == [Logout]
    ensures requestHeaders == PrepareHeaders(map[], old(session.token))
    ensures session.State() == Run(old(session.State()), dispatched)
    ensures !session.isAuthenticated && session.token == None && session.stored == None
  {
    requestHeaders := PrepareHeaders(map[], session.token);
    if serverSucceeded {
      session.Logout();
    } else {
      session.Logout();
    }
    dispatched := [Action.Logout];
  }
}
