/** The authentication provider (`AuthProvider`): the session fields and the
    browser storage behind them, the login, logout and startup transitions,
    and `authenticatedFetch` with its single-retry token refresh. */
module Auth {
  import opened Wrappers
  import opened Text
  import opened Client

  /** What the login or token-reissue endpoint answered: a token with the
      member's role and email, a `success: false` envelope, or a thrown
      error. */
  datatype Reply = Issued(accessToken: string, role: string, email: string) | Declined(message: Option<string>) | Threw(error: ApiError)

  const LoginPath := "/login"
  const TokenExpired := "TOKEN_EXPIRED"
  const DefaultRole := "USER"

  /** The error `authenticatedFetch` throws when a refresh cannot recover the call. */
  const ReloginError := ApiError("Token re-issue failed. Please log in again.", None, None)

  /** The stored credentials (token, role, email) and the session fields the
      provider exposes (authenticated flag, role, email). */
  datatype SessionState = SessionState(
    storedToken: Option<string>, storedRole: Option<string>, storedEmail: Option<string>,
    isAuthenticated: bool, userRole: Option<string>, userEmail: Option<string>)

  /** The session is authenticated exactly when it knows a role and an email,
      and then storage holds a token and the same role and email. */
  predicate Consistent(s: SessionState) {
    && (s.isAuthenticated <==> s.userRole.Some?)
    && (s.isAuthenticated <==> s.userEmail.Some?)
    && (s.isAuthenticated ==> s.storedToken.Some? && s.storedRole == s.userRole && s.storedEmail == s.userEmail)
  }

  /** The state after `setAuthTokens(token, role, email)`. */
  function Authenticated(token: string, role: string, email: string): (s: SessionState)
    ensures Consistent(s) && s.isAuthenticated
    ensures s.storedToken == Some(token) && s.userRole == Some(role) && s.userEmail == Some(email)
  {
    SessionState(Some(token), Some(role), Some(email), true, Some(role), Some(email))
  }

  /** The state after `logout`: storage emptied, nobody signed in. */
  const SignedOut := SessionState(None, None, None, false, None, None)

  /** The unauthenticated branch of startup: the session fields are cleared,
      storage is left as it was. */
  function Unauthenticated(s: SessionState): (t: SessionState)
    ensures Consistent(t) && !t.isAuthenticated
    ensures t.storedToken == s.storedToken && t.storedRole == s.storedRole && t.storedEmail == s.storedEmail
  {
    s.(isAuthenticated := false, userRole := None, userEmail := None)
  }

  /** The state startup ends in, given what the reissue endpoint answers. */
  function Startup(s: SessionState, reissue: Reply): (t: SessionState)
    ensures Consistent(t)
    ensures t.isAuthenticated <==> IsTruthy(s.storedRole) && IsTruthy(s.storedEmail) && reissue.Issued?
    ensures t.isAuthenticated ==>
      t == Authenticated(reissue.accessToken, s.storedRole.value, s.storedEmail.value)
    ensures !(IsTruthy(s.storedRole) && IsTruthy(s.storedEmail)) ==> t == Unauthenticated(s)
  {
    if IsTruthy(s.storedRole) && IsTruthy(s.storedEmail) then
      if reissue.Issued? then Authenticated(reissue.accessToken, s.storedRole.value, s.storedEmail.value)
      else SignedOut
    else Unauthenticated(s)
  }

  /** Startup discards stale credentials: when stored metadata exists but
      the silent refresh fails, nothing is left in storage. */
  lemma StartupFailureClears(s: SessionState, reissue: Reply)
    requires IsTruthy(s.storedRole) && IsTruthy(s.storedEmail) && !reissue.Issued?
    ensures Startup(s, reissue) == SignedOut
  {
  }

  // ---------------------------------------------------------------------
  // The refresh policy, stated without the loop

  /** The failure signature that triggers a silent refresh. */
  predicate ShouldRefresh(e: ApiError, retryCount: nat) {
    e.status == Some(401) && e.code == Some(TokenExpired) && retryCount == 0
  }

  /** The first attempt failed with the expired-token signature. */
  predicate Expired(first: Result<ApiResponse<Document>, ApiError>) {
    first.Err? && ShouldRefresh(first.error, 0)
  }

  /** The course of one `authenticatedFetch`: its result, the token it
      installed, whether it logged the user out, and how many calls it made. */
  datatype Plan = Plan(result: Result<ApiResponse<Document>, ApiError>, refreshedWith: Option<string>, loggedOut: bool, attempts: nat)

  /** The outcome of `authenticatedFetch` given the results of the first
      call, of the reissue, and of the retried call. */
  function RetryPolicy(first: Result<ApiResponse<Document>, ApiError>, reissue: Reply,
                       retried: Result<ApiResponse<Document>, ApiError>): (p: Plan)
    ensures 1 <= p.attempts <= 2
    ensures p.attempts == 2 <==> Expired(first) && reissue.Issued?
    ensures p.refreshedWith.Some? <==> p.attempts == 2
    ensures p.refreshedWith.Some? ==> p.refreshedWith.value == reissue.accessToken
    ensures !Expired(first) ==> p.result == first && !p.loggedOut
    ensures Expired(first) ==> (p.loggedOut <==> !(reissue.Issued? && retried.Ok?))
    ensures p.loggedOut ==> p.result == Err(ReloginError)
    ensures Expired(first) && !p.loggedOut ==> p.result == retried
  {
    if !Expired(first) then Plan(first, None, false, 1)
    else if !reissue.Issued? then Plan(Err(ReloginError), None, true, 1)
    else if retried.Ok? then Plan(retried, Some(reissue.accessToken), false, 2)
    else Plan(Err(ReloginError), Some(reissue.accessToken), true, 2)
  }

  /** A refresh is never followed by a second one: whatever the retried call
      answers, even the expired-token signature again, the chain ends. */
  lemma NoSecondRefresh(first: Result<ApiResponse<Document>, ApiError>, reissue: Reply,
                        retried: Result<ApiResponse<Document>, ApiError>)
    requires Expired(first) && reissue.Issued? && Expired(retried)
    ensures RetryPolicy(first, reissue, retried) == Plan(Err(ReloginError), Some(reissue.accessToken), true, 2)
  {
  }

  /** Errors other than an expired token on a 401 reach the caller unchanged. */
  lemma OtherErrorsPropagate(first: Result<ApiResponse<Document>, ApiError>, reissue: Reply,
                             retried: Result<ApiResponse<Document>, ApiError>)
    requires first.Err? && (first.error.status != Some(401) || first.error.code != Some(TokenExpired))
    ensures RetryPolicy(first, reissue, retried) == Plan(first, None, false, 1)
  {
  }

  // ---------------------------------------------------------------------
  // The provider

  class Session {
    /** The request client, shared by every caller. */
    const client: Registry
    var storedToken: Option<string>
    var storedRole: Option<string>
    var storedEmail: Option<string>
    var isAuthenticated: bool
    var userRole: Option<string>
    var userEmail: Option<string>
    var isLoading: bool
    /** The last path the router was sent to. */
    var navigatedTo: Option<string>

    ghost function State(): SessionState
      reads this
    {
      SessionState(storedToken, storedRole, storedEmail, isAuthenticated, userRole, userEmail)
    }

    ghost predicate Valid()
      reads this, client
    {
      client.Valid() && Consistent(State())
    }

    /** The provider as it mounts: storage holds whatever an earlier visit left. */
    constructor (client: Registry, token: Option<string>, role: Option<string>, email: Option<string>)
      requires client.Valid()
      ensures Valid() && this.client == client
      ensures State() == SessionState(token, role, email, false, None, None)
      ensures isLoading && navigatedTo == None
    {
      this.client := client;
      storedToken, storedRole, storedEmail := token, role, email;
      isAuthenticated, userRole, userEmail := false, None, None;
      isLoading := true;
      navigatedTo := None;
    }

    method SetAuthTokens(token: string, role: string, email: string)
      requires Valid()
      modifies this
      ensures Valid()
      ensures State() == Authenticated(token, role, email)
      ensures isLoading == old(isLoading) && navigatedTo == old(navigatedTo)
    {
      storedToken, storedRole, storedEmail := Some(token), Some(role), Some(email);
      isAuthenticated := true;
      userRole, userEmail := Some(role), Some(email);
    }

    method Logout()
      requires Valid()
      modifies this
      ensures Valid()
      ensures State() == SignedOut
      ensures !isLoading && navigatedTo == Some(LoginPath)
    {
      isLoading := true;
      storedToken, storedRole, storedEmail := None, None, None;
      isAuthenticated := false;
      userRole, userEmail := None, None;
      navigatedTo := Some(LoginPath);
      isLoading := false;
    }

    /** `login`, given what the login endpoint answers: the role on success,
        `Ok(None)` when the backend declines, the error when the call throws. */
    method Login(reply: Reply) returns (r: Result<Option<string>, ApiError>)
      requires Valid()
      modifies this
      ensures Valid()
      ensures !isLoading && navigatedTo == old(navigatedTo)
      ensures reply.Issued? ==>
        r == Ok(Some(reply.role)) && State() == Authenticated(reply.accessToken, reply.role, reply.email)
      ensures reply.Declined? ==> r == Ok(None) && State() == old(State())
      ensures reply.Threw? ==> r == Err(reply.error) && State() == old(State())
    {
      isLoading := true;
      match reply {
        case Issued(token, role, email) =>
          SetAuthTokens(token, role, email);
          r := Ok(Some(role));
        case Declined(_) =>
          r := Ok(None);
        case Threw(e) =>
          r := Err(e);
      }
      isLoading := false;
    }

    /** The startup effect: with stored role and email, a silent refresh
        decides between signing in and signing out. */
    method InitAuth(reissue: Reply)
      requires Valid()
      modifies this
      ensures Valid()
      ensures State() == Startup(old(State()), reissue)
      ensures !isLoading
      ensures navigatedTo ==
        if IsTruthy(old(storedRole)) && IsTruthy(old(storedEmail)) && !reissue.Issued? then Some(LoginPath)
        else old(navigatedTo)
    {
      var role, email := storedRole, storedEmail;
      if IsTruthy(role) && IsTruthy(email) {
        if reissue.Issued? {
          SetAuthTokens(reissue.accessToken, role.value, email.value);
        } else {
          Logout();
        }
      } else {
        isAuthenticated := false;
        userRole := None;
        userEmail := None;
      }
      isLoading := false;
    }

    /** `authenticatedFetch`: `first` and `retried` are the transport outcomes
        of the original and of the retried call, `reissue` what the reissue
        endpoint answers. The recursion with its retry counter is a loop
        that runs at most twice. */
    method AuthenticatedFetch(endpoint: string, options: Options, first: Transport, reissue: Reply, retried: Transport)
      returns (r: Result<ApiResponse<Document>, ApiError>)
      requires Valid()
      modifies this, client
      ensures Valid()
      ensures var p := RetryPolicy(ShapeResponse(first), reissue, ShapeResponse(retried));
        && r == p.result
        && (p.loggedOut ==> State() == SignedOut && !isLoading && navigatedTo == Some(LoginPath))
        && (!p.loggedOut && p.refreshedWith.Some? ==>
              && State() == Authenticated(p.refreshedWith.value, OrElse(old(userRole), DefaultRole), OrElse(old(userEmail), ""))
              && isLoading == old(isLoading) && navigatedTo == old(navigatedTo))
        && (!p.loggedOut && p.refreshedWith.None? ==>
              State() == old(State()) && isLoading == old(isLoading) && navigatedTo == old(navigatedTo))
      // Whatever happened, the fingerprint has left the registry.
      ensures client.inFlight == old(client.inFlight) - {RequestKey(endpoint, options)}
      ensures old(client.fetches) <= client.fetches
      // The first call issues a request unless it joins a pending one, which has then settled.
      ensures |client.fetches| == |old(client.fetches)|
        + (if RequestKey(endpoint, options) in old(client.inFlight) then 0 else 1)
        + (if RetryPolicy(ShapeResponse(first), reissue, ShapeResponse(retried)).attempts == 2 then 1 else 0)
      ensures RequestKey(endpoint, options) in old(client.inFlight) ==>
        old(client.inFlight)[RequestKey(endpoint, options)] in client.settled
      // Each request goes out with the token stored at that moment: the retry, always a
      // fresh request, with the new one.
      ensures RequestKey(endpoint, options) !in old(client.inFlight) ==>
        client.fetches[|old(client.fetches)|] ==
          Request(RequestKey(endpoint, options), client.baseUrl + endpoint, SentInit(options, old(storedToken)))
      ensures RetryPolicy(ShapeResponse(first), reissue, ShapeResponse(retried)).attempts == 2 ==>
        client.fetches[|client.fetches| - 1] ==
          Request(RequestKey(endpoint, options), client.baseUrl + endpoint, SentInit(options, Some(reissue.accessToken)))
    {
      var retryCount: nat := 0;
      while true
        invariant Valid()
        invariant retryCount <= 1
        invariant old(client.fetches) <= client.fetches
        invariant retryCount == 0 ==>
          && State() == old(State()) && isLoading == old(isLoading) && navigatedTo == old(navigatedTo)
          && client.fetches == old(client.fetches) && client.inFlight == old(client.inFlight)
        invariant retryCount == 1 ==>
          && Expired(ShapeResponse(first)) && reissue.Issued?
          && State() == Authenticated(reissue.accessToken, OrElse(old(userRole), DefaultRole), OrElse(old(userEmail), ""))
          && isLoading == old(isLoading) && navigatedTo == old(navigatedTo)
          && client.inFlight == old(client.inFlight) - {RequestKey(endpoint, options)}
          && |client.fetches| == |old(client.fetches)| + (if RequestKey(endpoint, options) in old(client.inFlight) then 0 else 1)
          && (RequestKey(endpoint, options) in old(client.inFlight) ==>
                old(client.inFlight)[RequestKey(endpoint, options)] in client.settled)
          && (RequestKey(endpoint, options) !in old(client.inFlight) ==>
                client.fetches[|old(client.fetches)|] ==
                  Request(RequestKey(endpoint, options), client.baseUrl + endpoint, SentInit(options, old(storedToken))))
        decreases 1 - retryCount
      {
        var res, issued := client.Fetch(endpoint, options, storedToken, if retryCount == 0 then first else retried);
        if res.Ok? {
          r := res;
          return;
        }
        if retryCount == 1 {
          // The retried call failed: the handler around it logs out.
          Logout();
          r := Err(ReloginError);
          return;
        }
        if !ShouldRefresh(res.error, retryCount) {
          r := res;
          return;
        }
        if !reissue.Issued? {
          // Declined or thrown: the reissue handler logs out.
          Logout();
          r := Err(ReloginError);
          return;
        }
        SetAuthTokens(reissue.accessToken, OrElse(userRole, DefaultRole), OrElse(userEmail, ""));
        retryCount := retryCount + 1;
      }
    }
  }
}
