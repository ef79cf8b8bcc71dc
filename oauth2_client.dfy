// oauth2/client.go: OAuth2 sessions (expiry and scope checks), the authorization URL's query,
// starting a session from a code and state, refreshing, and the scope-gated user getters.
// The current time is a parameter (time.Now), and so are the REST calls the client delegates to.
module OAuth2Client {
  import opened Wrappers
  import opened Snowflakes
  import opened GoTime
  import opened Permissions
  import opened QueryValues

  const ErrStateNotFound := "state could not be found"
  const ErrSessionExpired := "access token expired. refresh the session"

  /** ErrMissingOAuth2Scope(scope) */
  function ErrMissingOAuth2Scope(scope: string): string
  {
    "missing '" + scope + "' scope"
  }

  type OAuth2Scope = string
  const OAuth2ScopeIdentify: OAuth2Scope := "identify"
  const OAuth2ScopeGuildsMembersRead: OAuth2Scope := "guilds.members.read"
  const OAuth2ScopeGuilds: OAuth2Scope := "guilds"
  const OAuth2ScopeConnections: OAuth2Scope := "connections"
  const OAuth2ScopeRoleConnectionsWrite: OAuth2Scope := "role_connections.write"

  datatype Session = Session(accessToken: string, refreshToken: string, scopes: seq<OAuth2Scope>, tokenType: string, expiration: Time)

  /** The token endpoint's answer; the incoming webhook it may carry is kept by identity. */
  datatype AccessTokenResponse = AccessTokenResponse(
    accessToken: string, tokenType: string, expiresIn: Duration, refreshToken: string,
    scope: seq<OAuth2Scope>, webhook: Option<nat>)

  /** Session.Expired: the expiration lies strictly before now, so a session is still live at its expiration instant. */
  function Expired(s: Session, now: Time): (r: bool)
    ensures r <==> After(now, s.expiration)
    ensures now == s.expiration ==> !r
  {
    Before(s.expiration, now)
  }

  /** fluxer.HasScope(scope, scopes...): the scope is one of the granted ones, so no scope is held without a grant. */
  function HasScope(scope: OAuth2Scope, scopes: seq<OAuth2Scope>): (r: bool)
    ensures r <==> exists i :: 0 <= i < |scopes| && scopes[i] == scope
    ensures scopes == [] ==> !r
  {
    scope in scopes
  }

  /**
   * checkSession: an expired session is refused as expired whatever its scopes; a live one
   * without the scope is refused for that scope; otherwise there is no error.
   */
  function CheckSession(s: Session, scope: OAuth2Scope, now: Time): (err: Option<string>)
    ensures Expired(s, now) ==> err == Some(ErrSessionExpired)
    ensures !Expired(s, now) && !HasScope(scope, s.scopes) ==> err == Some(ErrMissingOAuth2Scope(scope))
    ensures err.None? <==> !Expired(s, now) && scope in s.scopes
  {
    if Expired(s, now) then Some(ErrSessionExpired)
    else if !HasScope(scope, s.scopes) then Some(ErrMissingOAuth2Scope(scope))
    else None
  }

  /** The two errors are told apart: the expiry text is never a missing-scope text. */
  lemma ExpiredNeverReportsScope(s: Session, scope: OAuth2Scope, now: Time, other: OAuth2Scope)
    requires Expired(s, now)
    ensures CheckSession(s, scope, now) != Some(ErrMissingOAuth2Scope(other))
  {
    var m := ErrMissingOAuth2Scope(other);
    assert m[0] == 'm';
    assert ErrSessionExpired[0] == 'a';
  }

  /** newSession: tokens, scopes and type copied; the session expires ExpiresIn after now. */
  function NewSession(at: AccessTokenResponse, now: Time): (s: Session)
    ensures s.accessToken == at.accessToken && s.refreshToken == at.refreshToken
    ensures s.scopes == at.scope && s.tokenType == at.tokenType
    ensures s.expiration == AddDuration(now, at.expiresIn)
  {
    Session(at.accessToken, at.refreshToken, at.scope, at.tokenType, AddDuration(now, at.expiresIn))
  }

  /** A new session is live until its lifetime has passed: expired at a later time iff that time is past now + ExpiresIn. */
  lemma NewSessionLifetime(at: AccessTokenResponse, now: Time, later: Time)
    ensures Expired(NewSession(at, now), later) <==> later > now + at.expiresIn
    ensures at.expiresIn >= 0 ==> !Expired(NewSession(at, now), now)
  {
  }

  /** The client's identity; its REST client is the function parameters of the members below. */
  datatype Client = Client(id: ID, secret: string)

  /**
   * A StateController: the redirect URI each outstanding state was issued for. Its
   * implementation is not part of this model; this one forgets a state once it is used.
   */
  class StateController {
    var states: map<string, string>

    constructor ()
      ensures states == map[]
    {
      states := map[];
    }

    /** NewState: record the redirect URI under a freshly generated state (the generator is the parameter). */
    method NewState(generated: string, redirectURI: string) returns (state: string)
      modifies this
      ensures state == generated
      ensures states == old(states)[generated := redirectURI]
    {
      states := states[generated := redirectURI];
      state := generated;
    }

    /** UseState: the redirect URI of the state, or "" for an unknown one; the state is used up. */
    method UseState(state: string) returns (redirectURI: string)
      modifies this
      ensures redirectURI == if state in old(states) then old(states)[state] else ""
      ensures states == old(states) - {state}
    {
      redirectURI := if state in states then states[state] else "";
      states := states - {state};
    }
  }

  datatype AuthorizationURLParams = AuthorizationURLParams(
    redirectURI: string,
    permissions: Permissions,
    guildID: ID,
    disableGuildSelect: bool,
    integrationType: int,
    scopes: seq<OAuth2Scope>)

  /**
   * The query of GenerateAuthorizationURLState, which fluxer.AuthorizeURL turns into the URL (the
   * URL's text is not part of this model): the five fixed parameters always, each optional one
   * exactly when it is set, and no other name.
   */
  method AuthorizationQuery(c: Client, params: AuthorizationURLParams, state: string) returns (values: Values)
    ensures "client_id" in values && values["client_id"] == IDValue(c.id)
    ensures "redirect_uri" in values && values["redirect_uri"] == StringValue(params.redirectURI)
    ensures "response_type" in values && values["response_type"] == StringValue("code")
    ensures "scope" in values && values["scope"] == ScopesValue(params.scopes)
    ensures "state" in values && values["state"] == StringValue(state)
    ensures ("permissions" in values <==> params.permissions != PermissionsNone)
            && ("permissions" in values ==> values["permissions"] == PermissionsValue(params.permissions))
    ensures ("guild_id" in values <==> params.guildID != 0) && ("guild_id" in values ==> values["guild_id"] == IDValue(params.guildID))
    ensures ("disable_guild_select" in values <==> params.disableGuildSelect)
            && ("disable_guild_select" in values ==> values["disable_guild_select"] == BoolValue(true))
    ensures ("integration_type" in values <==> params.integrationType != 0)
            && ("integration_type" in values ==> values["integration_type"] == IntValue(params.integrationType))
    ensures values.Keys <= {"client_id", "redirect_uri", "response_type", "scope", "state",
                            "permissions", "guild_id", "disable_guild_select", "integration_type"}
  {
    values := map["client_id" := IDValue(c.id), "redirect_uri" := StringValue(params.redirectURI),
                  "response_type" := StringValue("code"), "scope" := ScopesValue(params.scopes),
                  "state" := StringValue(state)];
    if params.permissions != PermissionsNone {
      values := values["permissions" := PermissionsValue(params.permissions)];
    }
    if params.guildID != 0 {
      values := values["guild_id" := IDValue(params.guildID)];
    }
    if params.disableGuildSelect {
      values := values["disable_guild_select" := BoolValue(true)];
    }
    if params.integrationType != 0 {
      values := values["integration_type" := IntValue(params.integrationType)];
    }
  }

  /**
   * GenerateAuthorizationURLState: a new state is issued for the redirect URI and the query is
   * built around it.
   */
  method GenerateAuthorizationURLState(c: Client, controller: StateController, params: AuthorizationURLParams, generated: string)
      returns (values: Values, state: string)
    modifies controller
    ensures state == generated
    ensures controller.states == old(controller.states)[generated := params.redirectURI]
    ensures "state" in values && values["state"] == StringValue(state)
    ensures "redirect_uri" in values && values["redirect_uri"] == StringValue(controller.states[state])
  {
    state := controller.NewState(generated, params.redirectURI);
    values := AuthorizationQuery(c, params, state);
  }

  /** The state in the query of an authorization URL starts a session with that URL's redirect URI. */
  method StateRedeemsRedirectURI(c: Client, controller: StateController, params: AuthorizationURLParams, generated: string,
                                 code: string, now: Time,
                                 getAccessToken: (ID, string, string, string) -> Result<AccessTokenResponse>)
      returns (r: Result<Started>, requested: bool)
    requires params.redirectURI != ""
    modifies controller
    ensures requested
    ensures var at := getAccessToken(c.id, c.secret, code, params.redirectURI);
            at.Ok? ==> r == Ok(Started(NewSession(at.value, now), at.value.webhook))
  {
    var values, state := GenerateAuthorizationURLState(c, controller, params, generated);
    r, requested := StartSession(c, controller, code, state, now, getAccessToken);
  }

  /** What StartSession returns on success: the session and the incoming webhook, if any. */
  datatype Started = Started(session: Session, webhook: Option<nat>)

  /**
   * StartSession. getAccessToken stands for Rest.GetAccessToken(id, secret, code, redirectURI);
   * requested reports whether the token endpoint was called.
   */
  method StartSession(c: Client, controller: StateController, code: string, state: string, now: Time,
                      getAccessToken: (ID, string, string, string) -> Result<AccessTokenResponse>)
      returns (r: Result<Started>, requested: bool)
    modifies controller
    ensures controller.states == old(controller.states) - {state}
    ensures requested <==> state in old(controller.states) && old(controller.states)[state] != ""
    ensures !requested ==> r == Err(ErrStateNotFound)
    ensures requested ==>
              var uri := old(controller.states)[state];
              var at := getAccessToken(c.id, c.secret, code, uri);
              && (at.Err? ==> r == Err(at.error))
              && (at.Ok? ==> r == Ok(Started(NewSession(at.value, now), at.value.webhook)))
  {
    var redirectURI := controller.UseState(state);
    if redirectURI == "" {
      return Err(ErrStateNotFound), false;
    }
    requested := true;
    var at := getAccessToken(c.id, c.secret, code, redirectURI);
    if at.Err? {
      return Err(at.error), requested;
    }
    r := Ok(Started(NewSession(at.value, now), at.value.webhook));
  }

  /** A state can start a session at most once. */
  method StateIsSingleUse(c: Client, controller: StateController, code: string, state: string, now: Time,
                          getAccessToken: (ID, string, string, string) -> Result<AccessTokenResponse>)
      returns (second: Result<Started>, requested: bool)
    modifies controller
    ensures second == Err(ErrStateNotFound) && !requested
  {
    var first, _ := StartSession(c, controller, code, state, now, getAccessToken);
    second, requested := StartSession(c, controller, code, state, now, getAccessToken);
  }

  /** RefreshSession. refreshAccessToken stands for Rest.RefreshAccessToken(id, secret, refreshToken). */
  function RefreshSession(c: Client, s: Session, now: Time,
                          refreshAccessToken: (ID, string, string) -> Result<AccessTokenResponse>): (r: Result<Session>)
    ensures var at := refreshAccessToken(c.id, c.secret, s.refreshToken);
            && (at.Err? ==> r == Err(at.error))
            && (at.Ok? ==> r == Ok(NewSession(at.value, now)))
  {
    match refreshAccessToken(c.id, c.secret, s.refreshToken)
    case Err(e) => Err(e)
    case Ok(at) => Ok(NewSession(at, now))
  }

  /** VerifySession: a live session is returned as it is; only an expired one is refreshed. */
  function VerifySession(c: Client, s: Session, now: Time,
                         refreshAccessToken: (ID, string, string) -> Result<AccessTokenResponse>): (r: Result<Session>)
    ensures !Expired(s, now) ==> r == Ok(s)
    ensures Expired(s, now) ==> r == RefreshSession(c, s, now, refreshAccessToken)
  {
    if Expired(s, now) then RefreshSession(c, s, now, refreshAccessToken) else Ok(s)
  }

  /** A session VerifySession hands back after a successful refresh is the new token's, and live if its lifetime is positive. */
  lemma VerifiedSessionIsLive(c: Client, s: Session, now: Time,
                              refreshAccessToken: (ID, string, string) -> Result<AccessTokenResponse>)
    requires VerifySession(c, s, now, refreshAccessToken).Ok?
    requires Expired(s, now) ==> refreshAccessToken(c.id, c.secret, s.refreshToken).value.expiresIn >= 0
    ensures !Expired(VerifySession(c, s, now, refreshAccessToken).value, now)
  {
  }

  /** The shape shared by the getters: check the session for the scope, then make the call with the access token. */
  function ScopedCall<T>(s: Session, scope: OAuth2Scope, now: Time, call: string -> Result<T>): (r: Result<T>)
    ensures CheckSession(s, scope, now).Some? ==> r == Err(CheckSession(s, scope, now).value)
    ensures CheckSession(s, scope, now).None? ==> r == call(s.accessToken)
    ensures r.Ok? ==> !Expired(s, now) && scope in s.scopes
  {
    match CheckSession(s, scope, now)
    case Some(e) => Err(e)
    case None => call(s.accessToken)
  }

  /** GetUser: needs the identify scope; getCurrentUser stands for Rest.GetCurrentUser. */
  function GetUser<U>(s: Session, now: Time, getCurrentUser: string -> Result<U>): (r: Result<U>)
    ensures r.Ok? ==> !Expired(s, now) && OAuth2ScopeIdentify in s.scopes
    ensures CheckSession(s, OAuth2ScopeIdentify, now).Some? ==> r == Err(CheckSession(s, OAuth2ScopeIdentify, now).value)
    ensures CheckSession(s, OAuth2ScopeIdentify, now).None? ==> r == getCurrentUser(s.accessToken)
  {
    ScopedCall(s, OAuth2ScopeIdentify, now, getCurrentUser)
  }

  /** GetMember: needs guilds.members.read; getCurrentMember stands for Rest.GetCurrentMember. */
  function GetMember<M>(s: Session, guildID: ID, now: Time, getCurrentMember: (string, ID) -> Result<M>): (r: Result<M>)
    ensures r.Ok? ==> !Expired(s, now) && OAuth2ScopeGuildsMembersRead in s.scopes
    ensures CheckSession(s, OAuth2ScopeGuildsMembersRead, now).Some? ==> r == Err(CheckSession(s, OAuth2ScopeGuildsMembersRead, now).value)
    ensures CheckSession(s, OAuth2ScopeGuildsMembersRead, now).None? ==> r == getCurrentMember(s.accessToken, guildID)
  {
    ScopedCall(s, OAuth2ScopeGuildsMembersRead, now, (token: string) => getCurrentMember(token, guildID))
  }

  /**
   * GetGuilds: needs the guilds scope; getCurrentUserGuilds stands for
   * Rest.GetCurrentUserGuilds(token, 0, 0, 0, false), the first page without filters.
   */
  function GetGuilds<G>(s: Session, now: Time, getCurrentUserGuilds: string -> Result<G>): (r: Result<G>)
    ensures r.Ok? ==> !Expired(s, now) && OAuth2ScopeGuilds in s.scopes
    ensures CheckSession(s, OAuth2ScopeGuilds, now).Some? ==> r == Err(CheckSession(s, OAuth2ScopeGuilds, now).value)
    ensures CheckSession(s, OAuth2ScopeGuilds, now).None? ==> r == getCurrentUserGuilds(s.accessToken)
  {
    ScopedCall(s, OAuth2ScopeGuilds, now, getCurrentUserGuilds)
  }

  /** GetConnections: needs the connections scope. */
  function GetConnections<X>(s: Session, now: Time, getCurrentUserConnections: string -> Result<X>): (r: Result<X>)
    ensures r.Ok? ==> !Expired(s, now) && OAuth2ScopeConnections in s.scopes
    ensures CheckSession(s, OAuth2ScopeConnections, now).Some? ==> r == Err(CheckSession(s, OAuth2ScopeConnections, now).value)
    ensures CheckSession(s, OAuth2ScopeConnections, now).None? ==> r == getCurrentUserConnections(s.accessToken)
  {
    ScopedCall(s, OAuth2ScopeConnections, now, getCurrentUserConnections)
  }

  /** GetApplicationRoleConnection: needs role_connections.write. */
  function GetApplicationRoleConnection<R>(s: Session, applicationID: ID, now: Time,
                                           getRoleConnection: (string, ID) -> Result<R>): (r: Result<R>)
    ensures r.Ok? ==> !Expired(s, now) && OAuth2ScopeRoleConnectionsWrite in s.scopes
    ensures CheckSession(s, OAuth2ScopeRoleConnectionsWrite, now).Some? ==> r == Err(CheckSession(s, OAuth2ScopeRoleConnectionsWrite, now).value)
    ensures CheckSession(s, OAuth2ScopeRoleConnectionsWrite, now).None? ==> r == getRoleConnection(s.accessToken, applicationID)
  {
    ScopedCall(s, OAuth2ScopeRoleConnectionsWrite, now, (token: string) => getRoleConnection(token, applicationID))
  }

  /** UpdateApplicationRoleConnection: needs role_connections.write, like the getter. */
  function UpdateApplicationRoleConnection<U, R>(s: Session, applicationID: ID, update: U, now: Time,
                                                 updateRoleConnection: (string, ID, U) -> Result<R>): (r: Result<R>)
    ensures r.Ok? ==> !Expired(s, now) && OAuth2ScopeRoleConnectionsWrite in s.scopes
    ensures CheckSession(s, OAuth2ScopeRoleConnectionsWrite, now).Some? ==> r == Err(CheckSession(s, OAuth2ScopeRoleConnectionsWrite, now).value)
    ensures CheckSession(s, OAuth2ScopeRoleConnectionsWrite, now).None? ==> r == updateRoleConnection(s.accessToken, applicationID, update)
  {
    ScopedCall(s, OAuth2ScopeRoleConnectionsWrite, now, (token: string) => updateRoleConnection(token, applicationID, update))
  }

  /** A session with only the identify scope can read the user but not the guilds, whatever the REST layer would answer. */
  lemma IdentifyOnlyCannotListGuilds<U, G>(s: Session, now: Time, getCurrentUser: string -> Result<U>, getCurrentUserGuilds: string -> Result<G>)
    requires !Expired(s, now) && s.scopes == [OAuth2ScopeIdentify]
    ensures GetUser(s, now, getCurrentUser) == getCurrentUser(s.accessToken)
    ensures GetGuilds(s, now, getCurrentUserGuilds) == Err(ErrMissingOAuth2Scope(OAuth2ScopeGuilds))
  {
    assert OAuth2ScopeGuilds !in s.scopes;
  }
}
