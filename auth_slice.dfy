/**
 * The authentication slice: the session record `{user, token, isAuthenticated, isLoading, error}`,
 * the persisted `authToken` storage cell beside it, and the five reducers that change both.
 *
 * `Apply` is the specification of one reducer step on a value; the `Session` class is the
 * in-place store, and each of its methods is proved to perform exactly that step.
 */
module AuthSlice {
  import opened Wrappers
  import opened Models
  import opened Http

  /** The slice's fields together with `stored`, the `authToken` storage cell. */
  datatype AuthState = AuthState(
    user: Option<User>,
    token: Option<string>,
    isAuthenticated: bool,
    isLoading: bool,
    error: Option<string>,
    stored: Option<string>)

  datatype Action =
    | LoginStart
    | LoginSuccess(user: User, token: string)
    | LoginFailure(message: string)
    | Logout
    | SetUser(user: User)

  /**
   * `initialState`, read from storage at start: the stored token is restored and counts as
   * authenticated when truthy, although no user is known yet.
   */
  function Initial(stored: Option<string>): (s: AuthState)
    ensures s.token == stored && s.stored == stored && s.user == None
    ensures s.isAuthenticated <==> stored.Some? && stored.value != ""
    ensures !s.isLoading && s.error == None
  {
    AuthState(None, stored, TruthyString(stored), false, None, stored)
  }

  /**
   * One reducer step. Only `loginSuccess`, `loginFailure` and `logout` touch the session's
   * identity: a success authenticates with its token, the other two end the session, and every
   * one of the three leaves storage holding the session token.
   */
  function Apply(s: AuthState, a: Action): (r: AuthState)
    ensures a.LoginSuccess? ==> r.isAuthenticated && r.user == Some(a.user) && r.token == Some(a.token)
    ensures a.LoginFailure? || a.Logout? ==> !r.isAuthenticated && r.user == None && r.token == None
    ensures a.LoginStart? || a.SetUser? ==>
              r.token == s.token && r.isAuthenticated == s.isAuthenticated && r.stored == s.stored
    ensures !a.LoginStart? && !a.SetUser? ==> r.stored == r.token && !r.isLoading
  {
    match a
    case LoginStart => s.(isLoading := true, error := None)
    case LoginSuccess(u, t) =>
      s.(isLoading := false, isAuthenticated := true, user := Some(u), token := Some(t), stored := Some(t))
    case LoginFailure(m) =>
      s.(isLoading := false, error := Some(m), isAuthenticated := false, user := None, token := None, stored := None)
    case Logout =>
      s.(isAuthenticated := false, user := None, token := None, isLoading := false, error := None, stored := None)
    case SetUser(u) => s.(user := Some(u))
  }

  /**
   * The state after dispatching `acts` in order. Nothing dispatched changes nothing, and a
   * sequence that ends in `logout` ends with no session and nothing stored.
   */
  function Run(s: AuthState, acts: seq<Action>): (r: AuthState)
    ensures acts == [] ==> r == s
    ensures acts != [] && acts[|acts| - 1].Logout? ==>
              !r.isAuthenticated && r.user == None && r.token == None && r.stored == None
    decreases |acts|
  {
    if acts == [] then s else Run(Apply(s, acts[0]), acts[1..])
  }

  // ---------------------------------------------------------------------------------------------
  // One step at a time

  lemma LoginStartEffect(s: AuthState)
    ensures var r := Apply(s, LoginStart);
            r.isLoading && r.error == None &&
            r.user == s.user && r.token == s.token && r.isAuthenticated == s.isAuthenticated && r.stored == s.stored
  {
  }

  lemma LoginSuccessEffect(s: AuthState, u: User, t: string)
    ensures var r := Apply(s, LoginSuccess(u, t));
            r.isAuthenticated && r.user == Some(u) && r.token == Some(t) && !r.isLoading &&
            r.stored == Some(t) && r.error == s.error
  {
  }

  /** Of two successive successes the second payload wins, whatever the first was. */
  lemma SecondLoginSuccessWins(s: AuthState, u1: User, t1: string, u2: User, t2: string)
    ensures Apply(Apply(s, LoginSuccess(u1, t1)), LoginSuccess(u2, t2)) == Apply(s, LoginSuccess(u2, t2))
  {
  }

  lemma LoginFailureEffect(s: AuthState, m: string)
    ensures var r := Apply(s, LoginFailure(m));
            !r.isAuthenticated && r.user == None && r.token == None && !r.isLoading &&
            r.error == Some(m) && r.stored == None
  {
  }

  lemma LogoutEffect(s: AuthState)
    ensures var r := Apply(s, Logout);
            !r.isAuthenticated && r.user == None && r.token == None && !r.isLoading &&
            r.error == None && r.stored == None
  {
  }

  lemma LogoutIdempotent(s: AuthState)
    ensures Apply(Apply(s, Logout), Logout) == Apply(s, Logout)
  {
  }

  lemma SetUserChangesOnlyUser(s: AuthState, u: User)
    ensures Apply(s, SetUser(u)) == s.(user := Some(u))
  {
  }

  /** After a success, a failure or a logout, storage holds exactly the session token. */
  lemma StorageFollowsToken(s: AuthState, a: Action)
    requires a.LoginSuccess? || a.LoginFailure? || a.Logout?
    ensures Apply(s, a).stored == Apply(s, a).token
  {
  }

  // ---------------------------------------------------------------------------------------------
  // Invariants of every reachable state

  /** `isAuthenticated` implies a token is present. */
  predicate TokenBacksAuthentication(s: AuthState) {
    s.isAuthenticated ==> s.token.Some?
  }

  /** A truthy token implies `isAuthenticated` (the converse direction, up to the empty token). */
  predicate TruthyTokenAuthenticates(s: AuthState) {
    TruthyString(s.token) ==> s.isAuthenticated
  }

  predicate StoredMirrorsToken(s: AuthState) {
    s.stored == s.token
  }

  predicate Consistent(s: AuthState) {
    TokenBacksAuthentication(s) && TruthyTokenAuthenticates(s) && StoredMirrorsToken(s)
  }

  lemma InitialConsistent(stored: Option<string>)
    ensures Consistent(Initial(stored))
  {
  }

  lemma ApplyPreservesConsistent(s: AuthState, a: Action)
    requires Consistent(s)
    ensures Consistent(Apply(s, a))
  {
  }

  lemma {:induction false} RunPreservesConsistent(s: AuthState, acts: seq<Action>)
    requires Consistent(s)
    ensures Consistent(Run(s, acts))
    decreases |acts|
  {
    if acts != [] {
      ApplyPreservesConsistent(s, acts[0]);
      RunPreservesConsistent(Apply(s, acts[0]), acts[1..]);
    }
  }

  lemma {:induction false} RunConcat(s: AuthState, a: seq<Action>, b: seq<Action>)
    ensures Run(s, a + b) == Run(Run(s, a), b)
    decreases |a|
  {
    if a == [] {
      assert a + b == b;
    } else {
      assert (a + b)[0] == a[0];
      assert (a + b)[1..] == a[1..] + b;
      RunConcat(Apply(s, a[0]), a[1..], b);
    }
  }

  /** Every state reached from start-up, by any sequence of reducers, is consistent. */
  lemma ReachableConsistent(stored: Option<string>, acts: seq<Action>)
    ensures Consistent(Run(Initial(stored), acts))
  {
    InitialConsistent(stored);
    RunPreservesConsistent(Initial(stored), acts);
  }

  /** Whatever happened before, a final logout leaves no session and no persisted token. */
  lemma LogoutEndsEverySession(s: AuthState, acts: seq<Action>)
    ensures var r := Run(s, acts + [Logout]);
            !r.isAuthenticated && r.user == None && r.token == None && r.stored == None
  {
    RunConcat(s, acts, [Logout]);
  }

  /** At start-up a truthy stored token is authenticated with no user: `isAuthenticated` does not imply a user. */
  lemma ColdStartAuthenticatedWithoutUser(t: string)
    requires t != ""
    ensures Initial(Some(t)).isAuthenticated && Initial(Some(t)).user == None
  {
  }

  // ---------------------------------------------------------------------------------------------
  // The store, updated in place

  class Session {
    var user: Option<User>
    var token: Option<string>
    var isAuthenticated: bool
    var isLoading: bool
    var error: Option<string>
    var stored: Option<string>

    function State(): AuthState
      reads this
    {
      AuthState(user, token, isAuthenticated, isLoading, error, stored)
    }

    /** The store created from the storage contents at start-up. */
    constructor (storedToken: Option<string>)
      ensures State() == Initial(storedToken)
    {
      user := None;
      token := storedToken;
      isAuthenticated := TruthyString(storedToken);
      isLoading := false;
      error := None;
      stored := storedToken;
    }

    method LoginStart()
      modifies this
      ensures isLoading && error == None
      ensures user == old(user) && token == old(token) && isAuthenticated == old(isAuthenticated)
      ensures stored == old(stored)
      ensures State() == Apply(old(State()), Action.LoginStart)
    {
      isLoading := true;
      error := None;
    }

    method LoginSuccess(u: User, t: string)
      modifies this
      ensures !isLoading && isAuthenticated && user == Some(u) && token == Some(t) && stored == Some(t)
      ensures error == old(error)
      ensures State() == Apply(old(State()), Action.LoginSuccess(u, t))
    {
      isLoading := false;
      isAuthenticated := true;
      user := Some(u);
      token := Some(t);
      stored := Some(t);
    }

    method LoginFailure(m: string)
      modifies this
      ensures !isLoading && error == Some(m) && !isAuthenticated && user == None && token == None
      ensures stored == None
      ensures State() == Apply(old(State()), Action.LoginFailure(m))
    {
      isLoading := false;
      error := Some(m);
      isAuthenticated := false;
      user := None;
      token := None;
      stored := None;
    }

    method Logout()
      modifies this
      ensures !isAuthenticated && user == None && token == None && !isLoading && error == None
      ensures stored == None
      ensures State() == Apply(old(State()), Action.Logout)
    {
      isAuthenticated := false;
      user := None;
      token := None;
      isLoading := false;
      error := None;
      stored := None;
    }

    method SetUser(u: User)
      modifies this
      ensures user == Some(u)
      ensures token == old(token) && isAuthenticated == old(isAuthenticated) && isLoading == old(isLoading)
      ensures error == old(error) && stored == old(stored)
      ensures State() == Apply(old(State()), Action.SetUser(u))
    {
      user := Some(u);
    }

    /** `dispatch(action)`: runs the reducer the action names. */
    method Dispatch(a: Action)
      modifies this
      ensures State() == Apply(old(State()), a)
    {
      match a
      case LoginStart => LoginStart();
      case LoginSuccess(u, t) => LoginSuccess(u, t);
      case LoginFailure(m) => LoginFailure(m);
      case Logout => Logout();
      case SetUser(u) => SetUser(u);
    }
  }
}
