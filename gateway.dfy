/** The authorization gateway of server.js: the login redirect, the callback
    that runs the authorization-code grant of RFC 6749 (section 4.1), and the
    per-request re-check of guild membership and roles that either refreshes
    or destroys the session.

    Every outbound call to Discord is an abstract outcome supplied by a
    `Provider`; the gateway records which calls it made, in order, so that
    statements such as "no token exchange was attempted" are statements about
    that record. */
module Gateway {
  import opened Js
  import opened Access

  /** The opaque session id carried by the browser's cookie. */
  type Handle = string

  const AuthorizeEndpoint := "https://discord.com/api/oauth2/authorize"
  const Home := "/"
  const UnauthorizedPage := "/unauthorized.html"

  /** The settings read from the environment when the server starts. */
  datatype Config = Config(
    clientId: string,
    clientSecret: string,
    redirectUri: string,
    botToken: string,
    guildId: string,
    allowedRoles: seq<string>)

  /** The configuration as server.js reads it at start-up: the allowed roles
      are the parsed `DISCORD_ALLOWED_ROLE_IDS` setting, so each of them is a
      non-empty, trimmed, comma-free id. */
  function Configure(clientId: string, clientSecret: string, redirectUri: string,
                     botToken: string, guildId: string, allowedSetting: Option<string>): (cfg: Config)
    ensures cfg.allowedRoles == AllowedRoleIds(allowedSetting)
    ensures forall x :: x in cfg.allowedRoles ==> x != "" && Trim(x) == x && ',' !in x
    ensures cfg.clientId == clientId && cfg.clientSecret == clientSecret && cfg.redirectUri == redirectUri
    ensures cfg.botToken == botToken && cfg.guildId == guildId
  {
    AllowedRoleIdsClean(allowedSetting);
    Config(clientId, clientSecret, redirectUri, botToken, guildId, AllowedRoleIds(allowedSetting))
  }

  /** With the role setting unset or empty, the gate admits every guild
      member, whatever roles it holds. */
  lemma UnsetSettingAdmitsAll(clientId: string, clientSecret: string, redirectUri: string,
                              botToken: string, guildId: string, allowedSetting: Option<string>,
                              roles: Option<seq<string>>)
    requires !Truthy(allowedSetting)
    ensures RoleGate(Configure(clientId, clientSecret, redirectUri, botToken, guildId, allowedSetting).allowedRoles, roles)
  {
  }

  /** The outcome of one outbound HTTP call: a success status with its parsed
      body, another status, or a thrown exception (network failure, a body
      that is not JSON). */
  datatype Call<T> = Ok(body: T) | NotOk | Threw

  /** The fields of `GET /users/@me` the gateway reads. */
  datatype Profile = Profile(
    id: string,
    username: string,
    discriminator: string,
    globalName: Option<string>,
    avatar: Option<string>)

  /** The fields of `GET /guilds/{guild}/members/{user}` the gateway reads. */
  datatype Member = Member(nick: Option<string>, roles: Option<seq<string>>)

  /** Discord as seen during one request: the token endpoint (form fields to
      access token), the profile endpoint (access token to profile) and the
      guild-member endpoint (guild id and user id to member). */
  datatype Provider = Provider(
    token: seq<(string, string)> -> Call<string>,
    profile: string -> Call<Profile>,
    member: (string, string) -> Call<Member>)

  /** One outbound request the gateway made. */
  datatype Outbound =
    | TokenPost(form: seq<(string, string)>)
    | ProfileGet(accessToken: string)
    | MemberGet(guildId: string, userId: string)

  /** The record stored as `req.session.user`. */
  datatype User = User(
    id: string,
    username: string,
    discriminator: string,
    globalName: Option<string>,
    displayName: string,
    avatar: Option<string>)

  /** The `code` and `error` query parameters of the callback. */
  datatype Query = Query(code: Option<string>, error: Option<string>)

  /** What a handler answers: a redirect (to a path of the portal, or to the
      provider's authorize endpoint with its query parameters) or a JSON body
      with a status. */
  datatype Response =
    | Redirect(location: string)
    | RedirectToProvider(endpoint: string, params: seq<(string, string)>)
    | Json(status: nat, ok: bool, user: Option<User>)

  const Unauthenticated: Response := Json(401, false, None)
  const LoggedOut: Response := Json(200, true, None)

  /** The value of the first parameter named `key`. */
  function Lookup(params: seq<(string, string)>, key: string): (v: Option<string>)
    ensures v.Some? <==> exists i :: 0 <= i < |params| && params[i].0 == key
  {
    if params == [] then None
    else if params[0].0 == key then Some(params[0].1)
    else
      var v := Lookup(params[1..], key);
      assert forall i :: 1 <= i < |params| ==> params[i] == params[1..][i - 1];
      v
  }

  /** The parameter at index `i` is the one `Lookup` finds when no earlier
      parameter has the same name. */
  lemma {:induction false} LookupAt(params: seq<(string, string)>, i: nat)
    requires i < |params|
    requires forall j :: 0 <= j < i ==> params[j].0 != params[i].0
    ensures Lookup(params, params[i].0) == Some(params[i].1)
  {
    if i > 0 {
      assert params[1..][i - 1] == params[i];
      LookupAt(params[1..], i - 1);
    }
  }

  /** The query of the authorize redirect (section 4.1.1 of RFC 6749). */
  function AuthorizeParams(cfg: Config): (params: seq<(string, string)>)
    ensures Lookup(params, "client_id") == Some(cfg.clientId)
    ensures Lookup(params, "redirect_uri") == Some(cfg.redirectUri)
    ensures Lookup(params, "response_type") == Some("code")
    ensures Lookup(params, "scope") == Some("identify")
    ensures Lookup(params, "prompt") == Some("none")
    ensures |params| == 5
  {
    var params := [ ("client_id", cfg.clientId),
                    ("redirect_uri", cfg.redirectUri),
                    ("response_type", "code"),
                    ("scope", "identify"),
                    ("prompt", "none") ];
    LookupAt(params, 2);
    LookupAt(params, 3);
    LookupAt(params, 4);
    params
  }

  /** The form of the access token request (section 4.1.3 of RFC 6749). */
  function TokenForm(cfg: Config, code: string): (form: seq<(string, string)>)
    ensures Lookup(form, "grant_type") == Some("authorization_code")
    ensures Lookup(form, "code") == Some(code)
    ensures Lookup(form, "client_secret") == Some(cfg.clientSecret)
    ensures |form| == 5
  {
    var form := [ ("client_id", cfg.clientId),
                  ("client_secret", cfg.clientSecret),
                  ("grant_type", "authorization_code"),
                  ("code", code),
                  ("redirect_uri", cfg.redirectUri) ];
    LookupAt(form, 2);
    LookupAt(form, 3);
    form
  }

  /** The token request names the same client and the same redirect URI as
      the authorize redirect, as section 4.1.3 of RFC 6749 requires. */
  lemma TokenFormMatchesAuthorize(cfg: Config, code: string)
    ensures Lookup(TokenForm(cfg, code), "redirect_uri") == Lookup(AuthorizeParams(cfg), "redirect_uri")
    ensures Lookup(TokenForm(cfg, code), "client_id") == Lookup(AuthorizeParams(cfg), "client_id")
  {
    LookupAt(TokenForm(cfg, code), 4);
  }

  /** `GET /api/login`: redirect to the provider's authorize page. */
  function Login(cfg: Config): (r: Response)
    ensures r.RedirectToProvider? && r.endpoint == AuthorizeEndpoint
    ensures r.params == AuthorizeParams(cfg)
  {
    RedirectToProvider(AuthorizeEndpoint, AuthorizeParams(cfg))
  }

  /** The user record the callback stores, built from the profile and the
      member. */
  function SessionRecord(p: Profile, m: Member): User
  {
    User(p.id, p.username, p.discriminator, OrNull(p.globalName),
         DisplayName(m.nick, p.globalName, p.username), OrNull(p.avatar))
  }

  /** What the callback decides: the user to store, if any, and the calls it
      made to decide it. */
  datatype Admission = Admission(user: Option<User>, calls: seq<Outbound>)

  /** The decision of `GET /api/callback`, step by step as the handler takes
      it: an `error` parameter or a missing `code` denies at once; otherwise
      the code is exchanged for a token, the profile and the guild member are
      fetched, and the role gate is applied. Any failure denies. */
  function Authenticate(cfg: Config, q: Query, idp: Provider): (a: Admission)
    // No call at all is made for a provider error or a missing code.
    ensures a.calls == [] <==> Truthy(q.error) || !Truthy(q.code)
    ensures a.calls != [] ==> a.calls[0] == TokenPost(TokenForm(cfg, q.code.value))
    // Each failure ends the request at once: no retry, and no later call.
    ensures !Truthy(q.error) && Truthy(q.code) ==>
      var form := TokenForm(cfg, q.code.value);
      var t := idp.token(form);
      && (!t.Ok? ==> a.calls == [TokenPost(form)])
      && (t.Ok? && !idp.profile(t.body).Ok? ==> a.calls == [TokenPost(form), ProfileGet(t.body)])
      && (t.Ok? && idp.profile(t.body).Ok? ==>
            a.calls == [TokenPost(form), ProfileGet(t.body), MemberGet(cfg.guildId, idp.profile(t.body).body.id)])
    // A user is admitted exactly when every step succeeds.
    ensures a.user.Some? <==>
      && !Truthy(q.error) && Truthy(q.code)
      && var t := idp.token(TokenForm(cfg, q.code.value));
         && t.Ok?
         && var p := idp.profile(t.body);
            && p.Ok?
            && var m := idp.member(cfg.guildId, p.body.id);
               m.Ok? && RoleGate(cfg.allowedRoles, m.body.roles)
    // The admitted record, and the three calls that led to it.
    ensures a.user.Some? ==>
      var form := TokenForm(cfg, q.code.value);
      var t := idp.token(form).body;
      var p := idp.profile(t).body;
      var m := idp.member(cfg.guildId, p.id).body;
      && a.calls == [TokenPost(form), ProfileGet(t), MemberGet(cfg.guildId, p.id)]
      && a.user.value.id == p.id
      && a.user.value.username == p.username
      && a.user.value.discriminator == p.discriminator
      && a.user.value.globalName == OrNull(p.globalName)
      && a.user.value.displayName == DisplayName(m.nick, p.globalName, p.username)
      && a.user.value.avatar == OrNull(p.avatar)
  {
    if Truthy(q.error) then Admission(None, [])
    else if !Truthy(q.code) then Admission(None, [])
    else
      var form := TokenForm(cfg, q.code.value);
      var t := idp.token(form);
      if !t.Ok? then Admission(None, [TokenPost(form)])
      else
        var p := idp.profile(t.body);
        if !p.Ok? then Admission(None, [TokenPost(form), ProfileGet(t.body)])
        else
          var m := idp.member(cfg.guildId, p.body.id);
          var calls := [TokenPost(form), ProfileGet(t.body), MemberGet(cfg.guildId, p.body.id)];
          if !m.Ok? then Admission(None, calls)
          else if !RoleGate(cfg.allowedRoles, m.body.roles) then Admission(None, calls)
          else Admission(Some(SessionRecord(p.body, m.body)), calls)
  }

  /** The decision of the re-check in `GET /api/me` for a stored user, given
      the reply of the member re-fetch: keep the session, with the display
      name recomputed from the fresh nickname, or revoke it. */
  function Recheck(cfg: Config, u: User, reply: Call<Member>): (r: Option<User>)
    ensures r.Some? <==> reply.Ok? && RoleGate(cfg.allowedRoles, reply.body.roles)
    // Only the display name changes.
    ensures r.Some? ==> r.value.(displayName := u.displayName) == u
    ensures r.Some? ==> r.value.displayName == DisplayName(reply.body.nick, u.globalName, u.username)
  {
    match reply
    case Ok(m) =>
      if RoleGate(cfg.allowedRoles, m.roles)
      then Some(u.(displayName := DisplayName(m.nick, u.globalName, u.username)))
      else None
    case _ => None
  }

  /** The store after a request, the answer, and the calls made. */
  datatype Served = Served(sessions: map<Handle, User>, response: Response, calls: seq<Outbound>)

  /** `GET /api/callback` on the session `h`: a session is written only on
      admission, and then the browser goes to the portal's root; otherwise it
      goes to the unauthorized page and the store is exactly as it was. */
  function CallbackStep(cfg: Config, sessions: map<Handle, User>, h: Handle, q: Query, idp: Provider): (s: Served)
    ensures s.calls == Authenticate(cfg, q, idp).calls
    ensures s.response == Redirect(Home) || s.response == Redirect(UnauthorizedPage)
    ensures s.response == Redirect(Home) <==> Authenticate(cfg, q, idp).user.Some?
    ensures s.response == Redirect(Home) ==> s.sessions == sessions[h := Authenticate(cfg, q, idp).user.value]
    ensures s.response == Redirect(UnauthorizedPage) ==> s.sessions == sessions
  {
    var a := Authenticate(cfg, q, idp);
    match a.user
    case Some(u) => Served(sessions[h := u], Redirect(Home), a.calls)
    case None => Served(sessions, Redirect(UnauthorizedPage), a.calls)
  }

  /** `GET /api/me` on the session `h`. Without a stored user: 401, nothing
      fetched, nothing destroyed. With one: the member is fetched again; a
      failed fetch or a denied role gate destroys the session and answers
      401; otherwise only the display name is refreshed and the user is
      returned. Other sessions are never touched. */
  function MeStep(cfg: Config, sessions: map<Handle, User>, h: Handle, idp: Provider): (s: Served)
    ensures h !in sessions ==> s == Served(sessions, Unauthenticated, [])
    ensures h in sessions ==> s.calls == [MemberGet(cfg.guildId, sessions[h].id)]
    ensures h in sessions ==>
      var reply := idp.member(cfg.guildId, sessions[h].id);
      if reply.Ok? && RoleGate(cfg.allowedRoles, reply.body.roles) then
        && h in s.sessions
        && s.sessions[h].(displayName := sessions[h].displayName) == sessions[h]
        && s.sessions[h].displayName == DisplayName(reply.body.nick, sessions[h].globalName, sessions[h].username)
        && s.response == Json(200, true, Some(s.sessions[h]))
      else
        s.sessions == sessions - {h} && s.response == Unauthenticated
    ensures s.response == Unauthenticated ==> h !in s.sessions
    ensures s.sessions.Keys == sessions.Keys || s.sessions.Keys == sessions.Keys - {h}
    ensures forall k :: k in sessions && k != h ==> s.sessions[k] == sessions[k]
  {
    if h !in sessions then Served(sessions, Unauthenticated, [])
    else
      var u := sessions[h];
      var calls := [MemberGet(cfg.guildId, u.id)];
      match Recheck(cfg, u, idp.member(cfg.guildId, u.id))
      case Some(v) => Served(sessions[h := v], Json(200, true, Some(v)), calls)
      case None => Served(sessions - {h}, Unauthenticated, calls)
  }

  /** `POST /api/logout`: the session is destroyed whether or not it exists,
      and the answer is always `{ok: true}`. */
  function LogoutStep(sessions: map<Handle, User>, h: Handle): (s: Served)
    ensures s.sessions.Keys == sessions.Keys - {h}
    ensures forall k :: k in s.sessions ==> s.sessions[k] == sessions[k]
    ensures s.response == LoggedOut && s.calls == []
  {
    Served(sessions - {h}, LoggedOut, [])
  }

  /** A request to one of the four routes. */
  datatype Request =
    | GetLogin
    | GetCallback(query: Query, idp: Provider)
    | GetMe(idp: Provider)
    | PostLogout

  /** One request on the session `h`. */
  function Serve(cfg: Config, sessions: map<Handle, User>, h: Handle, req: Request): Served
  {
    match req
    case GetLogin => Served(sessions, Login(cfg), [])
    case GetCallback(q, idp) => CallbackStep(cfg, sessions, h, q, idp)
    case GetMe(idp) => MeStep(cfg, sessions, h, idp)
    case PostLogout => LogoutStep(sessions, h)
  }

  /** The store after a sequence of requests, and the answer to each. */
  datatype Outcome = Outcome(sessions: map<Handle, User>, responses: seq<Response>)

  function Run(cfg: Config, sessions: map<Handle, User>, trace: seq<(Handle, Request)>): (o: Outcome)
    ensures |o.responses| == |trace|
    decreases |trace|
  {
    if trace == [] then Outcome(sessions, [])
    else
      var s := Serve(cfg, sessions, trace[0].0, trace[0].1);
      var rest := Run(cfg, s.sessions, trace[1..]);
      Outcome(rest.sessions, [s.response] + rest.responses)
  }

  /** Only a successful callback on `h` can put a session under `h`. */
  lemma ServeCreatesOnlyByCallback(cfg: Config, sessions: map<Handle, User>, h: Handle, k: Handle, req: Request)
    requires k !in sessions
    requires k in Serve(cfg, sessions, h, req).sessions
    ensures k == h && req.GetCallback? && Authenticate(cfg, req.query, req.idp).user.Some?
  {
  }

  /** A request that puts a user under its handle: a callback that admits. */
  predicate Admits(cfg: Config, req: Request)
  {
    req.GetCallback? && Authenticate(cfg, req.query, req.idp).user.Some?
  }

  /** One request that does not admit on `h` leaves `h` without a session. */
  lemma ServeKeepsOut(cfg: Config, sessions: map<Handle, User>, h: Handle, k: Handle, req: Request)
    requires h !in sessions
    requires k == h ==> !Admits(cfg, req)
    ensures h !in Serve(cfg, sessions, k, req).sessions
  {
    if h in Serve(cfg, sessions, k, req).sessions {
      ServeCreatesOnlyByCallback(cfg, sessions, k, h, req);
    }
  }

  /** Replaying a non-empty trace is serving its first request, then
      replaying the rest from the store that request leaves. */
  lemma RunCons(cfg: Config, sessions: map<Handle, User>, trace: seq<(Handle, Request)>)
    requires trace != []
    ensures var s := Serve(cfg, sessions, trace[0].0, trace[0].1);
      var rest := Run(cfg, s.sessions, trace[1..]);
      && Run(cfg, sessions, trace).sessions == rest.sessions
      && Run(cfg, sessions, trace).responses[0] == s.response
      && forall i :: 1 <= i < |trace| ==> Run(cfg, sessions, trace).responses[i] == rest.responses[i - 1]
  {
  }

  /** No resurrection: once a handle has no session, no sequence of requests
      that holds no admitted callback on that handle gives it one back, and
      every `/api/me` on it answers 401. Denied callbacks may occur. */
  lemma {:induction false} NoResurrection(cfg: Config, sessions: map<Handle, User>, h: Handle, trace: seq<(Handle, Request)>)
    requires h !in sessions
    requires forall i :: 0 <= i < |trace| && trace[i].0 == h ==> !Admits(cfg, trace[i].1)
    ensures h !in Run(cfg, sessions, trace).sessions
    ensures forall i :: 0 <= i < |trace| && trace[i].0 == h && trace[i].1.GetMe? ==>
              Run(cfg, sessions, trace).responses[i] == Unauthenticated
    decreases |trace|
  {
    if trace != [] {
      var s := Serve(cfg, sessions, trace[0].0, trace[0].1);
      ServeKeepsOut(cfg, sessions, h, trace[0].0, trace[0].1);
      var tail := trace[1..];
      assert forall i :: 0 <= i < |tail| ==> tail[i] == trace[i + 1];
      NoResurrection(cfg, s.sessions, h, tail);
      RunCons(cfg, sessions, trace);
    }
  }

  /** A re-check that answers 401 leaves no session behind, so from then on
      the handle stays unauthenticated until a callback on it admits the user;
      denied callbacks in between change nothing. */
  lemma RevokedStaysRevoked(cfg: Config, sessions: map<Handle, User>, h: Handle, idp: Provider, later: seq<(Handle, Request)>)
    requires MeStep(cfg, sessions, h, idp).response == Unauthenticated
    requires forall i :: 0 <= i < |later| && later[i].0 == h ==> !Admits(cfg, later[i].1)
    ensures forall i :: 0 <= i < |later| && later[i].0 == h && later[i].1.GetMe? ==>
              Run(cfg, MeStep(cfg, sessions, h, idp).sessions, later).responses[i] == Unauthenticated
  {
    NoResurrection(cfg, MeStep(cfg, sessions, h, idp).sessions, h, later);
  }

  /** Logging out twice is logging out once, and both answers are `{ok: true}`. */
  lemma LogoutIdempotent(sessions: map<Handle, User>, h: Handle)
    ensures LogoutStep(LogoutStep(sessions, h).sessions, h) == LogoutStep(sessions, h)
  {
  }

  /** A callback carrying an `error` parameter makes no call, writes nothing
      and sends the browser to the unauthorized page. */
  lemma CallbackErrorDenies(cfg: Config, sessions: map<Handle, User>, h: Handle, q: Query, idp: Provider)
    requires Truthy(q.error)
    ensures CallbackStep(cfg, sessions, h, q, idp) == Served(sessions, Redirect(UnauthorizedPage), [])
  {
  }

  /** A member whose roles shrink from an allowed one to none between two
      re-checks is authenticated on the first and loses the session on the
      second. */
  lemma RoleLossRevokes(cfg: Config, sessions: map<Handle, User>, h: Handle, before: Provider, after: Provider)
    requires cfg.allowedRoles == ["A"]
    requires h in sessions
    requires before.member(cfg.guildId, sessions[h].id) == Ok(Member(None, Some(["A"])))
    requires forall g, id :: after.member(g, id) == Ok(Member(None, Some([])))
    ensures MeStep(cfg, sessions, h, before).response.status == 200
    ensures var s := MeStep(cfg, sessions, h, before).sessions;
            MeStep(cfg, s, h, after).response == Unauthenticated && h !in MeStep(cfg, s, h, after).sessions
  {
    assert "A" in MemberRoles(Some(["A"]));
  }

  /** The session store of express-session as the gateway uses it: a map from
      session handle to the stored user. The handlers below change it in
      place; each is proved to do what the corresponding step function says. */
  class SessionStore {
    var sessions: map<Handle, User>

    constructor ()
      ensures sessions == map[]
    {
      sessions := map[];
    }

    /** `GET /api/callback` for the browser whose session handle is `h`. */
    method Callback(cfg: Config, h: Handle, q: Query, idp: Provider) returns (response: Response, calls: seq<Outbound>)
      modifies this
      ensures Served(sessions, response, calls) == CallbackStep(cfg, old(sessions), h, q, idp)
      ensures response == Redirect(Home) ==> h in sessions && sessions == old(sessions)[h := sessions[h]]
      ensures response != Redirect(Home) ==> sessions == old(sessions)
    {
      calls := [];
      if Truthy(q.error) {
        response := Redirect(UnauthorizedPage);
        return;
      }
      if !Truthy(q.code) {
        response := Redirect(UnauthorizedPage);
        return;
      }
      var form := TokenForm(cfg, q.code.value);
      calls := calls + [TokenPost(form)];
      var tokenRes := idp.token(form);
      if !tokenRes.Ok? {
        response := Redirect(UnauthorizedPage);
        return;
      }
      var accessToken := tokenRes.body;
      calls := calls + [ProfileGet(accessToken)];
      var userRes := idp.profile(accessToken);
      if !userRes.Ok? {
        response := Redirect(UnauthorizedPage);
        return;
      }
      var user := userRes.body;
      calls := calls + [MemberGet(cfg.guildId, user.id)];
      var memberRes := idp.member(cfg.guildId, user.id);
      if !memberRes.Ok? {
        response := Redirect(UnauthorizedPage);
        return;
      }
      var member := memberRes.body;
      if |cfg.allowedRoles| > 0 {
        var hasAllowed := SomeAllowed(MemberRoles(member.roles), cfg.allowedRoles);
        if !hasAllowed {
          response := Redirect(UnauthorizedPage);
          return;
        }
      }
      var displayName := DisplayName(member.nick, user.globalName, user.username);
      sessions := sessions[h := User(user.id, user.username, user.discriminator,
                                     OrNull(user.globalName), displayName, OrNull(user.avatar))];
      response := Redirect(Home);
    }

    /** `GET /api/me` for the browser whose session handle is `h`. */
    method Me(cfg: Config, h: Handle, idp: Provider) returns (response: Response, calls: seq<Outbound>)
      modifies this
      ensures Served(sessions, response, calls) == MeStep(cfg, old(sessions), h, idp)
      ensures h !in old(sessions) ==> sessions == old(sessions) && response == Unauthenticated
      ensures response == Unauthenticated ==> sessions == old(sessions) - {h}
      ensures response != Unauthenticated ==>
                h in sessions && sessions == old(sessions)[h := sessions[h]]
                && sessions[h].(displayName := old(sessions)[h].displayName) == old(sessions)[h]
    {
      if h !in sessions {
        response, calls := Unauthenticated, [];
        return;
      }
      var u := sessions[h];
      calls := [MemberGet(cfg.guildId, u.id)];
      var memberRes := idp.member(cfg.guildId, u.id);
      if !memberRes.Ok? {
        sessions := sessions - {h};
        response := Unauthenticated;
        return;
      }
      var member := memberRes.body;
      if |cfg.allowedRoles| > 0 {
        var hasAllowed := SomeAllowed(MemberRoles(member.roles), cfg.allowedRoles);
        if !hasAllowed {
          sessions := sessions - {h};
          response := Unauthenticated;
          return;
        }
      }
      var displayName := DisplayName(member.nick, u.globalName, u.username);
      sessions := sessions[h := u.(displayName := displayName)];
      response := Json(200, true, Some(sessions[h]));
    }

    /** `POST /api/logout` for the browser whose session handle is `h`. */
    method Logout(h: Handle) returns (response: Response)
      modifies this
      ensures Served(sessions, response, []) == LogoutStep(old(sessions), h)
      ensures h !in sessions && response == LoggedOut
    {
      sessions := sessions - {h};
      response := LoggedOut;
    }
  }
}
