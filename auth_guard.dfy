/** The route guard in front of the account pages: a spinner while the
    profile is loading, a redirect to the login page when there is no token,
    and the protected page otherwise. */
module AuthGuard {
  import opened Types
  import opened AppStore
  import opened Hooks

  datatype Decision = Spinner | RedirectToLogin | RenderChildren

  /** The guard's chain of early returns over the `useAuth` values. */
  function Guard(isLoading: bool, token: Option<string>, isAuthenticated: bool): Decision {
    if isLoading then Spinner
    else if !Truthy(token) && !isAuthenticated then RedirectToLogin
    else RenderChildren
  }

  /** The decision for an authentication slice state. */
  function GuardFor(user: Option<User>, token: Option<string>, status: AuthStatus): Decision {
    Guard(IsLoading(status), token, IsAuthenticated(token, user))
  }

  /** Loading always shows the spinner; otherwise the redirect happens exactly
      when there is no usable token (being authenticated already implies one),
      so a token without a user still renders the page, as does being
      authenticated. */
  lemma GuardDecision(user: Option<User>, token: Option<string>, status: AuthStatus)
    ensures status == Loading ==> GuardFor(user, token, status) == Spinner
    ensures GuardFor(user, token, status) == RedirectToLogin <==> status != Loading && !Truthy(token)
    ensures status != Loading && Truthy(token) && user.None? ==> GuardFor(user, token, status) == RenderChildren
    ensures status != Loading && IsAuthenticated(token, user) ==> GuardFor(user, token, status) == RenderChildren
  {
  }

  /** The guard after each authentication reducer: while a profile fetch is
      pending it shows the spinner; after logging out or a rejected fetch it
      redirects to the login page (unless a fetch is still pending, for
      logout); after signing in with a non-empty token, or after a fetched
      profile with a usable token, it renders the page. */
  lemma GuardAfterReducers(s: Snapshot, u: User, accessToken: string, refreshToken: string, profile: User)
    ensures var t := ProfilePending(s); GuardFor(t.user, t.token, t.status) == Spinner
    ensures var t := LoggedOut(s);
      GuardFor(t.user, t.token, t.status) == (if s.status == Loading then Spinner else RedirectToLogin)
    ensures var t := ProfileRejected(s); GuardFor(t.user, t.token, t.status) == RedirectToLogin
    ensures var t := Authenticated(s, u, accessToken, refreshToken);
      s.status != Loading && accessToken != "" ==> GuardFor(t.user, t.token, t.status) == RenderChildren
    ensures var t := ProfileFetched(s, profile);
      GuardFor(t.user, t.token, t.status) == (if Truthy(s.token) then RenderChildren else RedirectToLogin)
  {
  }
}
