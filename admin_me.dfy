/**
 * The admin session check (src/app/api/admin/me/route.ts): three gates (a session cookie and a
 * secret, a token that verifies, a Strapi token cookie), then the current user as Strapi's
 * `/users/me` describes it, each field falling back on the signed session. Token
 * verification and Strapi's reply are parameters of the model.
 */
module AdminMe {
  import opened Wrappers
  import opened Json
  import Strings
  import opened AdminLogin

  /** The variables the route reads. */
  datatype MeEnv = MeEnv(
    adminJwtSecret: Option<string>,
    adminSessionSecret: Option<string>,
    strapiApiUrl: Option<string>,
    publicStrapiApiUrl: Option<string>,
    publicStrapiBaseUrl: Option<string>)

  /** The cookies the route reads, `None` where the cookie is absent. */
  datatype MeCookies = MeCookies(adminSession: Option<string>, strapiJwt: Option<string>)

  /** The payload of a verified session token; its role is untyped, as `normalizeRoleType` takes it. */
  datatype Session = Session(id: string, name: string, email: string, role: Value)

  /** `verifyAdminSessionToken(token, secret)`, which is not part of this model: `None` for `null`. */
  type TokenVerifier = (string, string) -> Option<Session>

  /**
   * What `fetch` of `/users/me` gave: a rejection, or a reply with its status and its JSON
   * (`None` where `json()` throws).
   */
  datatype MeReply =
    | FetchFailed
    | Answered(status: int, data: Option<Value>)

  /** Strapi's `/users/me`, given the URL and the bearer token it is sent. */
  type MeBackend = (string, string) -> MeReply

  /** The route's answer: 401 with `user: null`, or the current user with status 200. */
  datatype MeResponse = Unauthorized | Current(user: SessionUser)

  /** A set, non-empty value: the test `!value` is false. */
  predicate Present(v: Option<string>) {
    v.Some? && v.value != ""
  }

  /** `ADMIN_JWT_SECRET || ADMIN_SESSION_SECRET`, `None` standing for every falsy result. */
  function SessionSecret(env: MeEnv): (r: Option<string>)
    ensures Present(r) <==> Present(env.adminJwtSecret) || Present(env.adminSessionSecret)
    ensures r.Some? ==> r.value != ""
    ensures Present(env.adminJwtSecret) ==> r == env.adminJwtSecret
    ensures !Present(env.adminJwtSecret) && Present(env.adminSessionSecret) ==> r == env.adminSessionSecret
  {
    if Present(env.adminJwtSecret) then env.adminJwtSecret
    else if Present(env.adminSessionSecret) then env.adminSessionSecret
    else None
  }

  /** The verified session, when the cookie and the secret are present and the token verifies. */
  function VerifiedSession(env: MeEnv, cookies: MeCookies, verify: TokenVerifier): (r: Option<Session>)
    ensures r.Some? ==> Present(cookies.adminSession) && Present(SessionSecret(env))
    ensures r.Some? ==> verify(cookies.adminSession.value, SessionSecret(env).value) == r
  {
    var secret := SessionSecret(env);
    if !Present(cookies.adminSession) || !Present(secret) then None
    else verify(cookies.adminSession.value, secret.value)
  }

  /** The three gates pass: a verified session and a Strapi token. */
  predicate GatesPass(env: MeEnv, cookies: MeCookies, verify: TokenVerifier) {
    VerifiedSession(env, cookies, verify).Some? && Present(cookies.strapiJwt)
  }

  /** The session's own role, normalized, else `"author"`. */
  function SessionRole(session: Session): (r: string)
    ensures RoleNormalized(r)
    ensures NormalizeRoleType(session.role).Some? ==> r == NormalizeRoleType(session.role).value
    ensures NormalizeRoleType(session.role).None? ==> r == "author"
  {
    AuthorNormalized("author");
    NormalizeRoleType(session.role).GetOr("author")
  }

  /** The user the session alone describes, answered when Strapi cannot be asked. */
  function SessionUserOfSession(session: Session): (r: SessionUser)
    ensures r.id == session.id && r.name == session.name && r.email == session.email
    ensures r.role == SessionRole(session)
  {
    SessionUser(session.id, session.name, session.email, SessionRole(session))
  }

  /** The role of the current user: Strapi's `role.type`, then `role.name`, then the session's. */
  function CurrentRole(me: Value, session: Session): (r: string)
    ensures RoleNormalized(r)
    ensures NormalizeRoleType(Get(Get(me, "role"), "type")).Some? ==> r == NormalizeRoleType(Get(Get(me, "role"), "type")).value
    ensures NormalizeRoleType(Get(Get(me, "role"), "type")).None? && NormalizeRoleType(Get(Get(me, "role"), "name")).Some? ==>
      r == NormalizeRoleType(Get(Get(me, "role"), "name")).value
    ensures NormalizeRoleType(Get(Get(me, "role"), "type")).None? && NormalizeRoleType(Get(Get(me, "role"), "name")).None? ==>
      r == SessionRole(session)
  {
    RoleFrom(Get(Get(me, "role"), "type"), Get(Get(me, "role"), "name"), SessionRole(session))
  }

  /** The current user from Strapi's reply `me`, each field of the wrong type taken from the session. */
  function UserFromReply(me: Value, session: Session): (r: SessionUser)
    ensures Get(me, "id").Str? ==> r.id == Get(me, "id").s
    ensures !Get(me, "id").Str? && !Get(me, "id").Num? ==> r.id == session.id
    ensures r.name == GetString(me, "username").GetOr(session.name)
    ensures r.email == GetString(me, "email").GetOr(session.email)
    ensures r.role == CurrentRole(me, session)
  {
    var id := Get(me, "id");
    SessionUser(
      if id.Num? || id.Str? then ToJsString(id) else session.id,
      GetString(me, "username").GetOr(session.name),
      GetString(me, "email").GetOr(session.email),
      CurrentRole(me, session))
  }

  /**
   * `GET(request)` once `getStrapiApiBaseUrl()` has given `base` (`None` where it throws, which
   * the catch answers with the session's user).
   */
  function CurrentAt(env: MeEnv, base: Option<string>, cookies: MeCookies, verify: TokenVerifier, backend: MeBackend): (r: MeResponse)
    ensures r.Unauthorized? <==> !GatesPass(env, cookies, verify)
    ensures r.Current? ==> RoleNormalized(r.user.role)
  {
    var session := VerifiedSession(env, cookies, verify);
    if session.None? || !Present(cookies.strapiJwt) then Unauthorized
    else
      match base
      case None => Current(SessionUserOfSession(session.value))
      case Some(url) =>
        var reply := backend(url + "/users/me", cookies.strapiJwt.value);
        if reply.FetchFailed? || !StatusOk(reply.status) || reply.data.None? then Current(SessionUserOfSession(session.value))
        else Current(UserFromReply(reply.data.value, session.value))
  }

  /** `GET(request)`: the session check under the base URL the environment selects. */
  function CurrentUser(env: MeEnv, cookies: MeCookies, verify: TokenVerifier, backend: MeBackend): (r: MeResponse)
    ensures r.Unauthorized? <==> !GatesPass(env, cookies, verify)
    ensures r.Current? ==> RoleNormalized(r.user.role)
  {
    BuiltInApiUrlsUsable();
    CurrentAt(env, StrapiApiBaseUrl(env.strapiApiUrl, env.publicStrapiApiUrl, env.publicStrapiBaseUrl, BuiltInApiUrls), cookies, verify, backend)
  }

  /** Each missing gate gives 401: no cookie or no secret, a token that fails, no Strapi token. */
  lemma GatesRefuse(env: MeEnv, base: Option<string>, cookies: MeCookies, verify: TokenVerifier, backend: MeBackend)
    requires !Present(cookies.adminSession) || !Present(SessionSecret(env))
      || verify(cookies.adminSession.value, SessionSecret(env).value).None?
      || !Present(cookies.strapiJwt)
    ensures CurrentAt(env, base, cookies, verify, backend) == Unauthorized
  {
  }

  /** The reply Strapi gives at `base` to the request's Strapi token. */
  function MeReplyFor(base: string, cookies: MeCookies, backend: MeBackend): MeReply
    requires Present(cookies.strapiJwt)
  {
    backend(base + "/users/me", cookies.strapiJwt.value)
  }

  /** A failed request, a failing status or an unreadable reply leaves the session's user. */
  lemma UpstreamFailureKeepsSession(env: MeEnv, base: string, cookies: MeCookies, verify: TokenVerifier, backend: MeBackend)
    requires GatesPass(env, cookies, verify)
    requires var reply := MeReplyFor(base, cookies, backend);
      reply.FetchFailed? || !StatusOk(reply.status) || reply.data.None?
    ensures CurrentAt(env, Some(base), cookies, verify, backend) == Current(SessionUserOfSession(VerifiedSession(env, cookies, verify).value))
  {
  }

  /** A readable `ok` reply gives the user Strapi describes, backed by the session field by field. */
  lemma UpstreamSuccessGivesStrapiUser(env: MeEnv, base: string, cookies: MeCookies, verify: TokenVerifier, backend: MeBackend, me: Value)
    requires GatesPass(env, cookies, verify)
    requires MeReplyFor(base, cookies, backend).Answered?
    requires StatusOk(MeReplyFor(base, cookies, backend).status) && MeReplyFor(base, cookies, backend).data == Some(me)
    ensures CurrentAt(env, Some(base), cookies, verify, backend) == Current(UserFromReply(me, VerifiedSession(env, cookies, verify).value))
  {
  }

  /** A reply that carries none of the fields describes the session's own user: the two paths agree. */
  lemma EmptyReplyIsSessionUser(session: Session)
    ensures UserFromReply(Obj(map[]), session) == SessionUserOfSession(session)
  {
  }

  /** A numeric Strapi id is answered as its decimal text. */
  lemma NumericIdAsText(me: Value, session: Session)
    requires Get(me, "id").Num? && Get(me, "id").n >= 0
    ensures UserFromReply(me, session).id == Strings.NatToString(Get(me, "id").n)
  {
    ToJsStringScalars(Get(me, "id"));
  }

  /** Unlike sign-in, the session check does not restrict roles: any normalized role passes through. */
  lemma AnyRoleIsAnswered(me: Value, session: Session, t: string)
    requires Get(Get(me, "role"), "type") == Str(t) && RoleNormalized(t)
    ensures UserFromReply(me, session).role == t
  {
    NormalizedRoleFixed(t);
  }
}
