/**
 * `ProtectedRoute`: the guard around every page behind the login. It decides whether to ask the
 * server for the profile, what a profile answer does to the session, and what to render.
 */
module ProtectedRoute {
  import opened Wrappers
  import opened Models
  import opened Http
  import opened AuthSlice

  /** `skip: !token || isAuthenticated` on the profile query. */
  function SkipProfileQuery(s: AuthState): (skip: bool)
    ensures !skip <==> s.token.Some? && s.token.value != "" && !s.isAuthenticated
  {
    !TruthyString(s.token) || s.isAuthenticated
  }

  /** The profile query's hook result: `isLoading`, `data` and `isError`. */
  datatype QueryState = QueryState(isLoading: bool, data: Option<User>, isError: bool)

  /**
   * The result of a skipped query. That a skipped query reports this state is an assumption
   * about the query library, which is not part of this model.
   */
  const Idle := QueryState(false, None, false)

  /** The condition under which the component waits for the server (`isVerifyingToken || …`). */
  predicate Waiting(s: AuthState, q: QueryState) {
    q.isLoading || (TruthyString(s.token) && !s.isAuthenticated && !q.isError)
  }

  datatype Render = Spinner | RenderOutlet | RedirectToLogin

  /** The three-way render decision: a spinner while waiting, then the outlet or `/login`. */
  function Decide(s: AuthState, q: QueryState): (r: Render)
    ensures r == Spinner <==> Waiting(s, q)
    ensures r == RenderOutlet <==> !Waiting(s, q) && s.isAuthenticated
    ensures r == RedirectToLogin <==> !Waiting(s, q) && !s.isAuthenticated
  {
    if Waiting(s, q) then Spinner
    else if s.isAuthenticated then RenderOutlet
    else RedirectToLogin
  }

  /**
   * The verification effect: when a token is held but not yet trusted and the query has settled,
   * a fetched profile logs the user in; an error logs them out; otherwise nothing happens.
   */
  function VerificationEffect(s: AuthState, q: QueryState): (a: Option<Action>)
    ensures a.Some? <==> TruthyString(s.token) && !s.isAuthenticated && !q.isLoading && (q.data.Some? || q.isError)
    ensures a.Some? && q.data.Some? ==> a.value == LoginSuccess(q.data.value, s.token.value)
    ensures a.Some? && q.data.None? ==> a.value == Logout
  {
    if TruthyString(s.token) && !s.isAuthenticated && !q.isLoading then
      if q.data.Some? then Some(LoginSuccess(q.data.value, s.token.value))
      else if q.isError then Some(Logout)
      else None
    else None
  }

  /** A fetched profile wins over a simultaneous error flag. */
  lemma ProfileBeatsError(s: AuthState, u: User)
    requires TruthyString(s.token) && !s.isAuthenticated
    ensures VerificationEffect(s, QueryState(false, Some(u), true)) == Some(LoginSuccess(u, s.token.value))
  {
  }

  /** The effect acts only on a state whose profile query is not skipped. */
  lemma EffectNeedsQuery(s: AuthState, q: QueryState)
    ensures VerificationEffect(s, q).Some? ==> !SkipProfileQuery(s)
  {
  }

  /**
   * Once the effect has acted, the query is skipped and the render settles on the outlet for a
   * fetched profile and on the login redirect for an error.
   */
  lemma EffectSettlesRender(s: AuthState, q: QueryState)
    requires VerificationEffect(s, q).Some?
    ensures var s' := Apply(s, VerificationEffect(s, q).value);
            SkipProfileQuery(s') &&
            Decide(s', Idle) == (if q.data.Some? then RenderOutlet else RedirectToLogin)
  {
  }

  /** In every state the store can reach from start-up, the profile query is skipped. */
  lemma ReachableSkipsQuery(stored: Option<string>, acts: seq<Action>)
    ensures SkipProfileQuery(Run(Initial(stored), acts))
  {
    ReachableConsistent(stored, acts);
  }

  /** ... so the verification effect never fires, whatever the query reports ... */
  lemma ReachableEffectInert(stored: Option<string>, acts: seq<Action>, q: QueryState)
    ensures VerificationEffect(Run(Initial(stored), acts), q) == None
  {
    ReachableConsistent(stored, acts);
  }

  /** ... and with the skipped query idle, the guard never shows the spinner. */
  lemma ReachableRendersAtOnce(stored: Option<string>, acts: seq<Action>)
    ensures var s := Run(Initial(stored), acts);
            Decide(s, Idle) == (if s.isAuthenticated then RenderOutlet else RedirectToLogin)
  {
    ReachableConsistent(stored, acts);
  }

  /** A cold start with a stored token renders the protected pages before any profile is known. */
  lemma ColdStartRendersOutlet(t: string)
    requires t != ""
    ensures Decide(Initial(Some(t)), Idle) == RenderOutlet
    ensures Initial(Some(t)).user == None
  {
  }
}
