/**
 * The NextAuth configuration of src/lib/auth.ts: the role check, the credentials guard,
 * and the `jwt` callback that keeps the access token fresh. The clock and the answers of
 * the identity provider are parameters; the callback runs once, sequentially.
 */
module Auth {
  import opened Wrappers
  import opened AuthTypes

  // ---------------------------------------------------------------------------
  // hasRole
  // ---------------------------------------------------------------------------

  /** The roles a check asks for: a single role or a list of them. */
  datatype RequiredRoles = OneRole(role: Role) | AnyOf(roles: seq<Role>)

  function Listed(required: RequiredRoles): seq<Role>
  {
    match required
    case OneRole(r) => [r]
    case AnyOf(rs) => rs
  }

  /** `wanted.some(role => have.includes(role))`. */
  function SomeIn(wanted: seq<Role>, have: seq<Role>): (r: bool)
    ensures r <==> exists i :: 0 <= i < |wanted| && wanted[i] in have
  {
    if wanted == [] then false
    else if wanted[0] in have then true
    else
      assert forall i :: 1 <= i < |wanted| ==> wanted[i] == wanted[1..][i - 1];
      SomeIn(wanted[1..], have)
  }

  /** hasRole(user, required); `userRoles` is `user?.roles`, None when the user or its roles are missing. */
  function HasRole(userRoles: Option<seq<Role>>, required: RequiredRoles): (r: bool)
    ensures userRoles.None? ==> !r
    ensures userRoles.Some? ==> (r <==> exists role :: role in Listed(required) && role in userRoles.value)
    ensures required == AnyOf([]) ==> !r
  {
    userRoles.Some? && SomeIn(Listed(required), userRoles.value)
  }

  // ---------------------------------------------------------------------------
  // authorize
  // ---------------------------------------------------------------------------

  /** A JavaScript string value that is neither missing nor empty. */
  predicate Truthy(s: Option<string>) { s.Some? && s.value != "" }

  datatype Credentials = Credentials(email: Option<string>, password: Option<string>)

  datatype BackendUser = BackendUser(id: string, email: string, name: string, roles: seq<Role>)

  /** The body of a successful `auth/login` answer. */
  datatype LoginResponse = LoginResponse(user: BackendUser, accessToken: string, refreshToken: string)

  /** The user object `authorize` hands to NextAuth. */
  datatype SignedInUser = SignedInUser(
    id: string, email: string, name: string, roles: seq<Role>,
    accessToken: Option<string>, refreshToken: Option<string>)

  /** The guard `authorize` applies before it calls the backend. */
  predicate CallsLogin(credentials: Option<Credentials>)
  {
    credentials.Some? && Truthy(credentials.value.email) && Truthy(credentials.value.password)
  }

  /**
   * authorize(credentials); `login` is what the `auth/login` call returns, None when it throws.
   * It is consulted only when the guard lets the call happen.
   */
  function Authorize(credentials: Option<Credentials>, login: Option<LoginResponse>): (r: Option<SignedInUser>)
    ensures !CallsLogin(credentials) ==> r == None
    ensures CallsLogin(credentials) ==> (r.Some? <==> login.Some?)
    ensures r.Some? ==>
      var u := login.value.user;
      r.value.id == u.id && r.value.email == u.email && r.value.name == u.name && r.value.roles == u.roles
      && r.value.accessToken == Some(login.value.accessToken) && r.value.refreshToken == Some(login.value.refreshToken)
  {
    if !CallsLogin(credentials) then None
    else match login
      case None => None
      case Some(resp) =>
        Some(SignedInUser(resp.user.id, resp.user.email, resp.user.name, resp.user.roles,
                          Some(resp.accessToken), Some(resp.refreshToken)))
  }

  /** With a missing or empty email or password the answer does not depend on the backend at all. */
  lemma AuthorizeGuardSkipsBackend(credentials: Option<Credentials>, a: Option<LoginResponse>, b: Option<LoginResponse>)
    requires !CallsLogin(credentials)
    ensures Authorize(credentials, a) == Authorize(credentials, b) == None
  {
  }

  // ---------------------------------------------------------------------------
  // The jwt callback
  // ---------------------------------------------------------------------------

  /** 15 minutes, in milliseconds. */
  const AccessTokenLifetime := 15 * 60 * 1000
  /** 5 minutes, in milliseconds. */
  const RefreshSkew := 5 * 60 * 1000

  /** The fields of the JWT record the callback reads and writes. */
  datatype TokenState = TokenState(
    id: Option<string>, email: Option<string>, name: Option<string>, roles: Option<seq<Role>>,
    accessToken: Option<string>, refreshToken: Option<string>, accessTokenExpires: Option<int>,
    refreshing: bool)

  /** What NextAuth passes as `trigger`. */
  datatype Trigger = SignInTrigger | SignUpTrigger | UpdateTrigger | NoTrigger

  /** The client-supplied `session` of an update: `session.user.roles`. */
  datatype SessionUser = SessionUser(roles: Option<seq<Role>>)
  datatype SessionUpdate = SessionUpdate(user: Option<SessionUser>)

  /** How the `auth/refresh-token` call ends: an answer with (possibly missing) tokens, or a thrown error. */
  datatype RefreshOutcome = Refreshed(accessToken: Option<string>, refreshToken: Option<string>) | RefreshThrew

  /** Step 1: copy the signed-in user into the token. */
  function SignIn(t: TokenState, user: Option<SignedInUser>, now: int): TokenState
  {
    match user
    case None => t
    case Some(u) =>
      TokenState(Some(u.id), Some(u.email), Some(u.name), Some(u.roles), u.accessToken, u.refreshToken,
                 Some(now + AccessTokenLifetime), false)
  }

  /** The refresh condition: a refresh token, a non-zero expiry, and at most five minutes left. */
  predicate DueForRefresh(t: TokenState, now: int)
  {
    Truthy(t.refreshToken) && t.accessTokenExpires.Some? && t.accessTokenExpires.value != 0
    && now >= t.accessTokenExpires.value - RefreshSkew
  }

  /** Whether a refresh answer is accepted: both tokens present and non-empty. */
  predicate RefreshSucceeded(outcome: RefreshOutcome)
  {
    outcome.Refreshed? && Truthy(outcome.accessToken) && Truthy(outcome.refreshToken)
  }

  /** Step 3: apply the outcome of an attempted refresh. */
  function ApplyRefresh(t: TokenState, outcome: RefreshOutcome, refreshedAt: int): TokenState
  {
    if RefreshSucceeded(outcome) then
      t.(accessToken := outcome.accessToken, refreshToken := outcome.refreshToken,
         accessTokenExpires := Some(refreshedAt + AccessTokenLifetime), refreshing := false)
    else
      t.(accessToken := None, refreshToken := None, accessTokenExpires := None, refreshing := false)
  }

  /** Step 4: a client-triggered role update. */
  function UpdateRoles(t: TokenState, trigger: Trigger, session: Option<SessionUpdate>): TokenState
  {
    if trigger == UpdateTrigger && session.Some? && session.value.user.Some? then
      t.(roles := session.value.user.value.roles)
    else t
  }

  /**
   * The token the callback returns. `now` is the clock when the callback starts; `refreshedAt`
   * is the clock read after the refresh call has settled.
   */
  function JwtStep(t: TokenState, user: Option<SignedInUser>, trigger: Trigger, session: Option<SessionUpdate>,
                   now: int, refreshedAt: int, outcome: RefreshOutcome): TokenState
  {
    var t1 := SignIn(t, user, now);
    if t1.refreshing then t1
    else
      var t2 := if DueForRefresh(t1, now) then ApplyRefresh(t1, outcome, refreshedAt) else t1;
      UpdateRoles(t2, trigger, session)
  }

  /** The JWT record the callback mutates. */
  class Token {
    var id: Option<string>
    var email: Option<string>
    var name: Option<string>
    var roles: Option<seq<Role>>
    var accessToken: Option<string>
    var refreshToken: Option<string>
    var accessTokenExpires: Option<int>
    var refreshing: bool

    function State(): TokenState
      reads this
    {
      TokenState(id, email, name, roles, accessToken, refreshToken, accessTokenExpires, refreshing)
    }

    constructor (s: TokenState)
      ensures State() == s
    {
      id, email, name, roles := s.id, s.email, s.name, s.roles;
      accessToken, refreshToken, accessTokenExpires := s.accessToken, s.refreshToken, s.accessTokenExpires;
      refreshing := s.refreshing;
    }

    /**
     * jwt({ token, user, trigger, session }). Returns the refresh token sent to
     * `auth/refresh-token`, or None when no refresh call is made.
     */
    method Jwt(user: Option<SignedInUser>, trigger: Trigger, session: Option<SessionUpdate>,
               now: int, refreshedAt: int, outcome: RefreshOutcome)
      returns (refreshCall: Option<string>)
      modifies this
      ensures State() == JwtStep(old(State()), user, trigger, session, now, refreshedAt, outcome)
      ensures refreshCall.Some? <==>
        var t1 := SignIn(old(State()), user, now); !t1.refreshing && DueForRefresh(t1, now)
      ensures refreshCall.Some? ==> refreshCall == SignIn(old(State()), user, now).refreshToken
    {
      refreshCall := None;
      if user.Some? {
        var u := user.value;
        id, email, name, roles := Some(u.id), Some(u.email), Some(u.name), Some(u.roles);
        accessToken, refreshToken := u.accessToken, u.refreshToken;
        accessTokenExpires := Some(now + AccessTokenLifetime);
        refreshing := false;
      }

      if refreshing {
        return;
      }

      if Truthy(refreshToken) && accessTokenExpires.Some? && accessTokenExpires.value != 0
         && now >= accessTokenExpires.value - RefreshSkew
      {
        refreshing := true;
        refreshCall := refreshToken;
        if outcome.Refreshed? && Truthy(outcome.accessToken) && Truthy(outcome.refreshToken) {
          accessToken := outcome.accessToken;
          refreshToken := outcome.refreshToken;
          accessTokenExpires := Some(refreshedAt + AccessTokenLifetime);
          refreshing := false;
        } else {
          accessToken := None;
          refreshToken := None;
          accessTokenExpires := None;
          refreshing := false;
        }
      }

      if trigger == UpdateTrigger && session.Some? && session.value.user.Some? {
        roles := session.value.user.value.roles;
      }
    }
  }

  // ---------------------------------------------------------------------------
  // Properties of the callback
  // ---------------------------------------------------------------------------

  /** On sign-in the token copies the user, expires in 15 minutes, and is not refreshed in the same call. */
  lemma SignInDoesNotRefresh(t: TokenState, u: SignedInUser, trigger: Trigger, session: Option<SessionUpdate>,
                             now: int, refreshedAt: int, outcome: RefreshOutcome)
    ensures var r := JwtStep(t, Some(u), trigger, session, now, refreshedAt, outcome);
      && r.id == Some(u.id) && r.email == Some(u.email) && r.name == Some(u.name)
      && r.accessToken == u.accessToken && r.refreshToken == u.refreshToken
      && r.accessTokenExpires == Some(now + 900000) && !r.refreshing
      && (trigger != UpdateTrigger ==> r.roles == Some(u.roles))
  {
  }

  /** A token that is already being refreshed is returned untouched, role update included. */
  lemma RefreshingTokenUnchanged(t: TokenState, trigger: Trigger, session: Option<SessionUpdate>,
                                 now: int, refreshedAt: int, outcome: RefreshOutcome)
    requires t.refreshing
    ensures JwtStep(t, None, trigger, session, now, refreshedAt, outcome) == t
  {
  }

  /** When the refresh condition fails the token fields are left as they were. */
  lemma NotDueLeavesTokens(t: TokenState, trigger: Trigger, session: Option<SessionUpdate>,
                           now: int, refreshedAt: int, outcome: RefreshOutcome)
    requires !t.refreshing && !DueForRefresh(t, now)
    ensures var r := JwtStep(t, None, trigger, session, now, refreshedAt, outcome);
      r.accessToken == t.accessToken && r.refreshToken == t.refreshToken
      && r.accessTokenExpires == t.accessTokenExpires && r.refreshing == t.refreshing
      && r.id == t.id && r.email == t.email && r.name == t.name
  {
  }

  /** An accepted refresh replaces both tokens and restarts the 15-minute lifetime. */
  lemma RefreshSuccessReplacesTokens(t: TokenState, trigger: Trigger, session: Option<SessionUpdate>,
                                     now: int, refreshedAt: int, access: string, refresh: string)
    requires !t.refreshing && DueForRefresh(t, now) && access != "" && refresh != ""
    ensures var r := JwtStep(t, None, trigger, session, now, refreshedAt, Refreshed(Some(access), Some(refresh)));
      r.accessToken == Some(access) && r.refreshToken == Some(refresh)
      && r.accessTokenExpires == Some(refreshedAt + 900000) && !r.refreshing
  {
  }

  /**
   * A rejected or failed refresh clears the three token fields and keeps the identity;
   * the roles survive too, so HasRole answers as before.
   */
  lemma RefreshFailureClearsTokens(t: TokenState, trigger: Trigger, session: Option<SessionUpdate>,
                                   now: int, refreshedAt: int, outcome: RefreshOutcome, required: RequiredRoles)
    requires !t.refreshing && DueForRefresh(t, now) && !RefreshSucceeded(outcome)
    ensures var r := JwtStep(t, None, trigger, session, now, refreshedAt, outcome);
      && r.accessToken == None && r.refreshToken == None && r.accessTokenExpires == None && !r.refreshing
      && r.id == t.id && r.email == t.email && r.name == t.name
      && (trigger != UpdateTrigger ==> HasRole(r.roles, required) == HasRole(t.roles, required))
  {
  }

  /** The re-entry flag is false on return unless the call was skipped because it was already set. */
  lemma RefreshingFlagCleared(t: TokenState, user: Option<SignedInUser>, trigger: Trigger, session: Option<SessionUpdate>,
                              now: int, refreshedAt: int, outcome: RefreshOutcome)
    ensures JwtStep(t, user, trigger, session, now, refreshedAt, outcome).refreshing <==> user.None? && t.refreshing
  {
  }

  /** A role update replaces the roles and changes nothing else. */
  lemma RoleUpdateOnlyTouchesRoles(t: TokenState, user: Option<SignedInUser>, su: SessionUser,
                                   now: int, refreshedAt: int, outcome: RefreshOutcome)
    requires !SignIn(t, user, now).refreshing
    ensures var plain := JwtStep(t, user, NoTrigger, None, now, refreshedAt, outcome);
      JwtStep(t, user, UpdateTrigger, Some(SessionUpdate(Some(su))), now, refreshedAt, outcome)
        == plain.(roles := su.roles)
  {
  }

  /**
   * After an accepted refresh, a later run of the callback refreshes again exactly when
   * ten minutes have passed since the refresh settled; in particular not right away.
   * (An expiry of exactly 0 is falsy and never refreshes, hence the first conjunct.)
   */
  lemma NoSecondRefreshRightAway(t: TokenState, now: int, refreshedAt: int, access: string, refresh: string, later: int)
    requires !t.refreshing && DueForRefresh(t, now) && access != "" && refresh != ""
    ensures var r := JwtStep(t, None, NoTrigger, None, now, refreshedAt, Refreshed(Some(access), Some(refresh)));
      && (DueForRefresh(r, later) <==> refreshedAt + AccessTokenLifetime != 0 && later >= refreshedAt + 600000)
      && !DueForRefresh(r, refreshedAt)
  {
  }

  // ---------------------------------------------------------------------------
  // The session callback and the signOut event
  // ---------------------------------------------------------------------------

  datatype SessionUserView = SessionUserView(id: Option<string>, email: Option<string>, name: Option<string>,
                                             roles: Option<seq<Role>>)
  datatype SessionView = SessionView(user: SessionUserView, accessToken: Option<string>, refreshToken: Option<string>)

  /** session({ session, token }): the session exposes the token's identity and both tokens. */
  function SessionOf(t: TokenState): (s: SessionView)
    ensures s.user.roles == t.roles && s.accessToken == t.accessToken && s.refreshToken == t.refreshToken
    ensures s.user.id == t.id && s.user.email == t.email && s.user.name == t.name
  {
    SessionView(SessionUserView(t.id, t.email, t.name, t.roles), t.accessToken, t.refreshToken)
  }

  /** signOut: the Authorization header of the best-effort `auth/logout` call, None when no call is made. */
  function SignOutRequest(t: TokenState): (header: Option<string>)
    ensures header.Some? <==> Truthy(t.accessToken)
    ensures header.Some? ==> header.value == "Bearer " + t.accessToken.value
  {
    if Truthy(t.accessToken) then Some("Bearer " + t.accessToken.value) else None
  }

  /** After a failed refresh the session carries no token and signing out makes no backend call. */
  lemma FailedRefreshEndsSession(t: TokenState, now: int, refreshedAt: int, outcome: RefreshOutcome)
    requires !t.refreshing && DueForRefresh(t, now) && !RefreshSucceeded(outcome)
    ensures var r := JwtStep(t, None, NoTrigger, None, now, refreshedAt, outcome);
      SessionOf(r).accessToken == None && SessionOf(r).refreshToken == None && SignOutRequest(r) == None
      && SessionOf(r).user.roles == t.roles
  {
  }
}
