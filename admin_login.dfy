/**
 * The admin sign-in route (src/app/api/admin/login/route.ts): it checks the session secret and
 * the submitted credentials, asks Strapi's `/auth/local` to authenticate them, accepts only
 * unblocked users with an editorial role, and answers with the session user and two cookies.
 * Strapi's reply and the session-token signer are parameters of the model.
 */
module AdminLogin {
  import opened Wrappers
  import opened Strings
  import opened Json
  import ApiUrl

  // ---- normalizeRoleType ----

  /** A role name as `normalizeRoleType` leaves it: non-empty, trimmed, lower case, never `administrator`. */
  predicate RoleNormalized(s: string) {
    s != "" && IsTrimmed(s) && Lower(s) == s && s != "administrator"
  }

  /** `normalizeRoleType(value)`: `None` stands for `null`. */
  function NormalizeRoleType(v: Value): (r: Option<string>)
    ensures r.Some? <==> v.Str? && Trim(v.s) != ""
    ensures r.Some? ==> RoleNormalized(r.value)
    ensures r.Some? && Lower(Trim(v.s)) == "administrator" ==> r.value == "admin"
    ensures r.Some? && Lower(Trim(v.s)) != "administrator" ==> r.value == Lower(Trim(v.s))
  {
    if !v.Str? then None
    else
      var t := Lower(Trim(v.s));
      LowerTrimmed(Trim(v.s));
      LowerNoSpace(Trim(v.s));
      LowerIdempotent(Trim(v.s));
      if t == "" then None
      else if t == "administrator" then (AdminNormalized("admin"); Some("admin"))
      else Some(t)
  }

  lemma AdminNormalized(s: string)
    requires s == "admin"
    ensures RoleNormalized(s)
  {
    assert Lower(s) == LowerChar(s[0]) + Lower(s[1..]);
    assert s[1..] == "dmin" && Lower(s[1..]) == LowerChar('d') + Lower("min");
    assert "min"[1..] == "in" && Lower("min") == LowerChar('m') + Lower("in");
    assert "in"[1..] == "n" && Lower("in") == LowerChar('i') + Lower("n");
    assert Lower("n") == LowerChar('n') + Lower([]);
  }

  /** A normalized role is its own normalization, and only normalized roles are. */
  lemma NormalizedRoleFixed(s: string)
    ensures NormalizeRoleType(Str(s)) == Some(s) <==> RoleNormalized(s)
  {
    if RoleNormalized(s) {
      TrimOfTrimmed(s);
    }
  }

  /** Normalizing twice is normalizing once. */
  lemma NormalizeRoleTypeIdempotent(v: Value)
    requires NormalizeRoleType(v).Some?
    ensures NormalizeRoleType(Str(NormalizeRoleType(v).value)) == NormalizeRoleType(v)
  {
    NormalizedRoleFixed(NormalizeRoleType(v).value);
  }

  /** `normalizeRoleType(a) ?? normalizeRoleType(b) ?? fallback`. */
  function RoleFrom(a: Value, b: Value, fallback: string): (r: string)
    ensures NormalizeRoleType(a).Some? ==> r == NormalizeRoleType(a).value
    ensures NormalizeRoleType(a).None? && NormalizeRoleType(b).Some? ==> r == NormalizeRoleType(b).value
    ensures NormalizeRoleType(a).None? && NormalizeRoleType(b).None? ==> r == fallback
    ensures RoleNormalized(fallback) ==> RoleNormalized(r)
  {
    match NormalizeRoleType(a)
    case Some(t) => t
    case None => NormalizeRoleType(b).GetOr(fallback)
  }

  /** The role read from a Strapi user: `role.type`, else `role.name`, else `"author"`. */
  function UserRole(user: Value): (r: string)
    ensures RoleNormalized(r)
    ensures NormalizeRoleType(Get(Get(user, "role"), "type")).Some? ==> r == NormalizeRoleType(Get(Get(user, "role"), "type")).value
  {
    AuthorNormalized("author");
    RoleFrom(Get(Get(user, "role"), "type"), Get(Get(user, "role"), "name"), "author")
  }

  lemma AuthorNormalized(s: string)
    requires s == "author"
    ensures RoleNormalized(s)
  {
    assert Lower(s) == LowerChar(s[0]) + Lower(s[1..]);
    assert s[1..] == "uthor" && Lower("uthor") == LowerChar('u') + Lower("thor");
    assert "thor"[1..] == "hor" && Lower("thor") == LowerChar('t') + Lower("hor");
    assert "hor"[1..] == "or" && Lower("hor") == LowerChar('h') + Lower("or");
    assert "or"[1..] == "r" && Lower("or") == LowerChar('o') + Lower("r");
    assert Lower("r") == LowerChar('r') + Lower([]);
  }

  /** The roles the admin area admits. */
  predicate AllowedRole(role: string) {
    role == "admin" || role == "editor" || role == "author" || role == "contributor"
  }

  // ---- getStrapiApiBaseUrl ----

  const HostedApiUrl := "https://api.rampur.cloud/api"
  const LocalApiUrl := "http://localhost:1337/api"
  const LoopbackApiUrl := "http://127.0.0.1:1337/api"

  /** Whether an environment value survives `filter(isString).map(normalize).filter(Boolean)`. */
  predicate Usable(v: Option<string>) {
    v.Some? && ApiUrl.NormalizeApiUrl(v.value) != ""
  }

  /** The URLs `getStrapiApiBaseUrl` falls back on, in order. */
  const BuiltInApiUrls := [HostedApiUrl, LocalApiUrl, LoopbackApiUrl]

  /** The candidate list of `getStrapiApiBaseUrl`: three variables, then the built-in URLs. */
  function BaseUrlCandidates(a: Option<string>, b: Option<string>, c: Option<string>, builtIns: seq<string>): (r: seq<Option<string>>)
    ensures |r| == 3 + |builtIns| && r[0] == a && r[1] == b && r[2] == c
    ensures forall k :: 0 <= k < |builtIns| ==> r[3 + k] == Some(builtIns[k])
  {
    [a, b, c] + seq(|builtIns|, k requires 0 <= k < |builtIns| => Some(builtIns[k]))
  }

  lemma HostedFacts(s: string)
    requires s == "https://api.rampur.cloud/api"
    ensures IsTrimmed(s) && s != "" && s[|s| - 1] != '/'
    ensures EndsWith(s, "/api")
  {
  }

  /** The hosted URL, the first built-in one, is already normalized. */
  lemma HostedNormalized(builtIns: seq<string>)
    requires builtIns == BuiltInApiUrls
    ensures ApiUrl.NormalizeApiUrl(builtIns[0]) == builtIns[0] != ""
  {
    HostedFacts(builtIns[0]);
    ApiUrl.StrippedOfClean(builtIns[0]);
    ApiUrl.NormalizeClean(builtIns[0]);
  }

  /** A built-in list whose first URL normalizes to itself, as `BuiltInApiUrls` does. */
  predicate UsableBuiltIns(builtIns: seq<string>) {
    builtIns != [] && builtIns[0] != "" && ApiUrl.NormalizeApiUrl(builtIns[0]) == builtIns[0]
  }

  /**
   * `getStrapiApiBaseUrl()` with the given built-in URLs: the first usable candidate,
   * normalized; `None` where it would throw "Strapi API URL is not configured", which a usable
   * built-in list rules out.
   */
  function StrapiApiBaseUrl(a: Option<string>, b: Option<string>, c: Option<string>, builtIns: seq<string>): (r: Option<string>)
    requires UsableBuiltIns(builtIns)
    ensures r.Some? && r.value != ""
  {
    var cs := BaseUrlCandidates(a, b, c, builtIns);
    assert cs[3] == Some(builtIns[0]);
    ApiUrl.FirstNormalized(cs, ApiUrl.NormalizeApiUrl)
  }

  /** A usable `STRAPI_API_URL` decides the base URL. */
  lemma BaseUrlFromFirst(a: Option<string>, b: Option<string>, c: Option<string>, builtIns: seq<string>)
    requires UsableBuiltIns(builtIns) && Usable(a)
    ensures StrapiApiBaseUrl(a, b, c, builtIns) == Some(ApiUrl.NormalizeApiUrl(a.value))
  {
    TakeUsable(BaseUrlCandidates(a, b, c, builtIns));
  }

  /** An unusable first candidate is skipped. */
  lemma SkipUnusable(cs: seq<Option<string>>)
    requires cs != [] && !Usable(cs[0])
    ensures ApiUrl.FirstNormalized(cs, ApiUrl.NormalizeApiUrl) == ApiUrl.FirstNormalized(cs[1..], ApiUrl.NormalizeApiUrl)
  {
  }

  /** A usable first candidate is taken, normalized. */
  lemma TakeUsable(cs: seq<Option<string>>)
    requires cs != [] && Usable(cs[0])
    ensures ApiUrl.FirstNormalized(cs, ApiUrl.NormalizeApiUrl) == Some(ApiUrl.NormalizeApiUrl(cs[0].value))
  {
  }

  /** Otherwise a usable `NEXT_PUBLIC_STRAPI_API_URL` does. */
  lemma BaseUrlFromSecond(a: Option<string>, b: Option<string>, c: Option<string>, builtIns: seq<string>)
    requires UsableBuiltIns(builtIns) && !Usable(a) && Usable(b)
    ensures StrapiApiBaseUrl(a, b, c, builtIns) == Some(ApiUrl.NormalizeApiUrl(b.value))
  {
    var cs := BaseUrlCandidates(a, b, c, builtIns);
    SkipUnusable(cs);
    TakeUsable(cs[1..]);
  }

  /** Otherwise a usable `NEXT_PUBLIC_STRAPI_BASE_URL` does. */
  lemma BaseUrlFromThird(a: Option<string>, b: Option<string>, c: Option<string>, builtIns: seq<string>)
    requires UsableBuiltIns(builtIns) && !Usable(a) && !Usable(b) && Usable(c)
    ensures StrapiApiBaseUrl(a, b, c, builtIns) == Some(ApiUrl.NormalizeApiUrl(c.value))
  {
    var cs := BaseUrlCandidates(a, b, c, builtIns);
    SkipUnusable(cs);
    SkipUnusable(cs[1..]);
    assert cs[1..][1..] == cs[2..];
    TakeUsable(cs[2..]);
  }

  /** With none of the three usable, the first built-in URL is the base URL. */
  lemma BaseUrlFromBuiltIns(a: Option<string>, b: Option<string>, c: Option<string>, builtIns: seq<string>)
    requires UsableBuiltIns(builtIns) && !Usable(a) && !Usable(b) && !Usable(c)
    ensures StrapiApiBaseUrl(a, b, c, builtIns) == Some(builtIns[0])
  {
    var cs := BaseUrlCandidates(a, b, c, builtIns);
    SkipUnusable(cs);
    SkipUnusable(cs[1..]);
    assert cs[1..][1..] == cs[2..];
    SkipUnusable(cs[2..]);
    assert cs[2..][1..] == cs[3..];
    assert cs[3..][0] == Some(builtIns[0]);
    TakeUsable(cs[3..]);
  }

  // ---- POST ----

  /** The variables the route reads; `production` is `NODE_ENV === "production"`. */
  datatype LoginEnv = LoginEnv(
    adminJwtSecret: Option<string>,
    strapiApiUrl: Option<string>,
    publicStrapiApiUrl: Option<string>,
    publicStrapiBaseUrl: Option<string>,
    production: bool)

  /**
   * What `fetch` of `/auth/local` gave: a rejection (with its message when the thrown value is
   * an `Error`), or a reply with its status, its text (`""` where reading fails) and its JSON
   * (`Err` with the optional message where `json()` throws).
   */
  datatype AuthReply =
    | Threw(message: Option<string>)
    | Replied(status: int, text: string, data: Result<Value, Option<string>>)

  /** Strapi's `/auth/local`, given the URL, the identifier and the password it is sent. */
  type AuthBackend = (string, string, string) -> AuthReply

  /** The user the session carries. */
  datatype SessionUser = SessionUser(id: string, name: string, email: string, role: string)

  /** `createAdminSessionToken(user, secret, ttlSeconds)`, which is not part of this model. */
  type TokenSigner = (SessionUser, string, int) -> string

  /** A cookie as `response.cookies.set` writes it. */
  datatype Cookie = Cookie(name: string, value: string, httpOnly: bool, secure: bool, sameSite: string, path: string, maxAge: int)

  /** The route's answer: an error with its status, or the user with status 200 and its cookies. */
  datatype LoginResponse =
    | Rejected(status: int, error: string)
    | LoggedIn(user: SessionUser, cookies: seq<Cookie>)

  /** One day, the lifetime of the session token and of both cookies. */
  const SessionSeconds := 24 * 60 * 60

  const MissingSecretError := "Server configuration error: ADMIN_JWT_SECRET is missing"
  const MissingCredentialsError := "Email and password are required"
  const NoAccountError := "This account does not exist in CMS users. Please create the user under Strapi \U{2192} Users & Permissions."
  const DisabledError := "User is disabled"
  const UnauthorizedError := "Unauthorized"
  const LoginFailedError := "Strapi login failed"
  const NotConfiguredError := "Strapi API URL is not configured"

  /** `!sessionSecret` is false. */
  predicate SecretSet(env: LoginEnv) {
    env.adminJwtSecret.Some? && env.adminJwtSecret.value != ""
  }

  /** The submitted email, trimmed and lower-cased; `""` when it is not a string. */
  function InputEmail(email: Value): (r: string)
    ensures !email.Str? ==> r == ""
  {
    if email.Str? then Lower(Trim(email.s)) else ""
  }

  /**
   * The email Strapi is asked about is in normal form, trimmed and lower case, and it is empty
   * exactly when the submitted one is blank.
   */
  lemma InputEmailNormalized(email: Value)
    ensures IsTrimmed(InputEmail(email)) && Lower(InputEmail(email)) == InputEmail(email)
    ensures email.Str? ==> (InputEmail(email) == "" <==> Trim(email.s) == "")
  {
    if email.Str? {
      LowerTrimmed(Trim(email.s));
      LowerNoSpace(Trim(email.s));
      LowerIdempotent(Trim(email.s));
    }
  }

  /** The submitted password, trimmed; `""` when it is not a string. */
  function InputPassword(password: Value): (r: string)
    ensures IsTrimmed(r)
    ensures !password.Str? ==> r == ""
  {
    if password.Str? then Trim(password.s) else ""
  }

  /** `2xx`, the test behind `upstream.ok`. */
  predicate StatusOk(status: int) {
    200 <= status <= 299
  }

  /** The upstream statuses that mean the credentials were refused. */
  predicate RefusedStatus(status: int) {
    status == 400 || status == 401 || status == 403
  }

  /** `jwt`: the reply's `jwt` when it is a non-empty string (the test `!jwt` is false). */
  function ReplyJwt(data: Value): Option<string> {
    match GetString(data, "jwt")
    case Some(j) => if j == "" then None else Some(j)
    case None => None
  }

  /** `data?.user ?? null`. */
  function ReplyUser(data: Value): Value {
    Coalesce(Get(data, "user"), Null)
  }

  /** The session user built from a Strapi user, with the given input email and role. */
  function SessionUserOf(user: Value, inputEmail: string, role: string): (r: SessionUser)
    ensures r.role == role
    ensures Get(user, "id").Str? ==> r.id == Get(user, "id").s
    ensures !Get(user, "id").Str? && !Get(user, "id").Num? ==> r.id == ""
    ensures r.name == GetString(user, "username").GetOr("User")
    ensures r.email == GetString(user, "email").GetOr(inputEmail)
  {
    var id := Get(user, "id");
    SessionUser(
      if id.Num? || id.Str? then ToJsString(id) else "",
      GetString(user, "username").GetOr("User"),
      GetString(user, "email").GetOr(inputEmail),
      role)
  }

  /** The two cookies of a successful sign-in. */
  function SessionCookies(token: string, jwt: string, production: bool): (r: seq<Cookie>)
    ensures |r| == 2 && r[0].name == "admin_session" && r[0].value == token
    ensures r[1].name == "strapi_jwt" && r[1].value == jwt
    ensures forall k :: 0 <= k < 2 ==>
      r[k].httpOnly && r[k].secure == production && r[k].sameSite == "lax" && r[k].path == "/" && r[k].maxAge == 86400
  {
    [Cookie("admin_session", token, true, production, "lax", "/", SessionSeconds),
     Cookie("strapi_jwt", jwt, true, production, "lax", "/", SessionSeconds)]
  }

  /** The steps after a successful upstream reply: `jwt`/`user` presence, `blocked`, the role. */
  function Admit(env: LoginEnv, inputEmail: string, data: Value, sign: TokenSigner): (r: LoginResponse)
    requires SecretSet(env)
    ensures r.Rejected? ==> r.status == 401 || r.status == 403
    ensures r.LoggedIn? ==> ReplyJwt(data).Some? && Truthy(ReplyUser(data)) && AllowedRole(r.user.role)
    ensures r.LoggedIn? ==> RoleNormalized(r.user.role) && r.user.role == UserRole(ReplyUser(data))
    ensures r.LoggedIn? ==> r.user == SessionUserOf(ReplyUser(data), inputEmail, r.user.role)
    ensures r.LoggedIn? ==> r.cookies == SessionCookies(sign(r.user, env.adminJwtSecret.value, 86400), ReplyJwt(data).value, env.production)
    ensures r.LoggedIn? ==> ReplyJwt(data).value != ""
  {
    var jwt := ReplyJwt(data);
    var user := ReplyUser(data);
    if jwt.None? || !Truthy(user) then Rejected(401, NoAccountError)
    else if Get(user, "blocked") == Bool(true) then Rejected(403, DisabledError)
    else
      var role := UserRole(user);
      if !AllowedRole(role) then Rejected(403, UnauthorizedError)
      else
        var u := SessionUserOf(user, inputEmail, role);
        LoggedIn(u, SessionCookies(sign(u, env.adminJwtSecret.value, SessionSeconds), jwt.value, env.production))
  }

  /** The answer to an upstream reply that is not `ok`, or to a failure to obtain one. */
  function UpstreamFailure(reply: AuthReply): (r: LoginResponse)
    requires reply.Threw? || !StatusOk(reply.status) || reply.data.Err?
    ensures r.Rejected? && (r.status == 401 <==> reply.Replied? && !StatusOk(reply.status) && RefusedStatus(reply.status))
    ensures r.status != 401 ==> r.status == 502
  {
    match reply
    case Threw(message) => Rejected(502, ThrownMessage(message))
    case Replied(status, text, data) =>
      if !StatusOk(status) then
        if RefusedStatus(status) then Rejected(401, NoAccountError)
        else Rejected(502, if text != "" then text else LoginFailedError + " (" + IntToString(status) + ")")
      else Rejected(502, ThrownMessage(data.error))
  }

  /** `error instanceof Error ? error.message : "Strapi login failed"`. */
  function ThrownMessage(message: Option<string>): (r: string)
    ensures message.Some? ==> r == message.value
    ensures message.None? ==> r == LoginFailedError
  {
    message.GetOr(LoginFailedError)
  }

  /**
   * `POST(request)` for a body `{ email, password }`, once `getStrapiApiBaseUrl()` has given
   * `base` (`None` where it throws, which the catch turns into 502).
   */
  function LoginAt(env: LoginEnv, base: Option<string>, email: Value, password: Value, backend: AuthBackend, sign: TokenSigner): (r: LoginResponse)
    ensures r.Rejected? ==> r.status in {400, 401, 403, 500, 502}
    ensures !SecretSet(env) ==> r == Rejected(500, MissingSecretError)
    ensures r.LoggedIn? ==> SecretSet(env) && InputEmail(email) != "" && InputPassword(password) != ""
    ensures r.LoggedIn? ==> AllowedRole(r.user.role) && RoleNormalized(r.user.role)
    ensures r.LoggedIn? ==> |r.cookies| == 2 && r.cookies[1].value != ""
    ensures r.LoggedIn? ==> r.cookies == SessionCookies(sign(r.user, env.adminJwtSecret.value, 86400), r.cookies[1].value, env.production)
  {
    if !SecretSet(env) then Rejected(500, MissingSecretError)
    else
      var inputEmail := InputEmail(email);
      var inputPassword := InputPassword(password);
      if inputEmail == "" || inputPassword == "" then Rejected(400, MissingCredentialsError)
      else
        match base
        case None => Rejected(502, NotConfiguredError)
        case Some(url) => Answer(env, inputEmail, backend(url + "/auth/local", inputEmail, inputPassword), sign)
  }

  /** The answer to Strapi's reply: the failure path, or the checks of `Admit` on its data. */
  function Answer(env: LoginEnv, inputEmail: string, reply: AuthReply, sign: TokenSigner): (r: LoginResponse)
    requires SecretSet(env)
    ensures r.Rejected? ==> r.status in {401, 403, 502}
    ensures r.LoggedIn? ==> reply.Replied? && StatusOk(reply.status) && reply.data.Ok?
    ensures r.LoggedIn? ==> AllowedRole(r.user.role) && RoleNormalized(r.user.role)
    ensures r.LoggedIn? ==> |r.cookies| == 2 && r.cookies[1].value != ""
    ensures r.LoggedIn? ==> r.cookies == SessionCookies(sign(r.user, env.adminJwtSecret.value, 86400), r.cookies[1].value, env.production)
  {
    if reply.Threw? || !StatusOk(reply.status) || reply.data.Err? then UpstreamFailure(reply)
    else Admit(env, inputEmail, reply.data.value, sign)
  }

  /** The site's built-in list is usable, so `getStrapiApiBaseUrl` never throws. */
  lemma BuiltInApiUrlsUsable()
    ensures UsableBuiltIns(BuiltInApiUrls)
  {
    HostedNormalized(BuiltInApiUrls);
  }

  /** `POST(request)`: the sign-in under the base URL the environment selects. */
  function Login(env: LoginEnv, email: Value, password: Value, backend: AuthBackend, sign: TokenSigner): (r: LoginResponse)
    ensures r.Rejected? ==> r.status in {400, 401, 403, 500, 502}
    ensures !SecretSet(env) ==> r == Rejected(500, MissingSecretError)
    ensures r.LoggedIn? ==> SecretSet(env) && InputEmail(email) != "" && InputPassword(password) != ""
    ensures r.LoggedIn? ==> AllowedRole(r.user.role) && RoleNormalized(r.user.role)
    ensures r.LoggedIn? ==> |r.cookies| == 2
    ensures r.LoggedIn? ==> r.cookies == SessionCookies(sign(r.user, env.adminJwtSecret.value, 86400), r.cookies[1].value, env.production)
  {
    BuiltInApiUrlsUsable();
    LoginAt(env, StrapiApiBaseUrl(env.strapiApiUrl, env.publicStrapiApiUrl, env.publicStrapiBaseUrl, BuiltInApiUrls), email, password, backend, sign)
  }

  /** Blank credentials are refused with 400 once the secret is set, before Strapi is asked. */
  lemma BlankCredentialsRefused(env: LoginEnv, base: Option<string>, email: Value, password: Value, b1: AuthBackend, b2: AuthBackend, sign: TokenSigner)
    requires SecretSet(env) && (InputEmail(email) == "" || InputPassword(password) == "")
    ensures LoginAt(env, base, email, password, b1, sign) == Rejected(400, MissingCredentialsError)
    ensures LoginAt(env, base, email, password, b1, sign) == LoginAt(env, base, email, password, b2, sign)
  {
  }

  /** The reply Strapi gives at `base` to the trimmed lower-cased email and the trimmed password. */
  function ReplyFor(base: string, email: Value, password: Value, backend: AuthBackend): AuthReply {
    backend(base + "/auth/local", InputEmail(email), InputPassword(password))
  }

  /**
   * Strapi is asked once, at `base/auth/local`, with the trimmed lower-cased email and the
   * trimmed password: two backends that agree on that one question give the same answer.
   */
  lemma AsksWithNormalizedCredentials(env: LoginEnv, base: string, email: Value, password: Value, b1: AuthBackend, b2: AuthBackend, sign: TokenSigner)
    requires ReplyFor(base, email, password, b1) == ReplyFor(base, email, password, b2)
    ensures LoginAt(env, Some(base), email, password, b1, sign) == LoginAt(env, Some(base), email, password, b2, sign)
  {
    if SecretSet(env) && InputEmail(email) != "" && InputPassword(password) != "" {
      AnswersReply(env, base, email, password, b1, sign);
      AnswersReply(env, base, email, password, b2, sign);
    }
  }

  /** With the secret and both inputs set, the answer is the answer to Strapi's reply at `base`. */
  lemma AnswersReply(env: LoginEnv, base: string, email: Value, password: Value, backend: AuthBackend, sign: TokenSigner)
    requires SecretSet(env) && InputEmail(email) != "" && InputPassword(password) != ""
    ensures LoginAt(env, Some(base), email, password, backend, sign)
      == Answer(env, InputEmail(email), ReplyFor(base, email, password, backend), sign)
  {
  }

  /** Strapi refusing the credentials with 400, 401 or 403 gives 401. */
  lemma RefusedCredentials(env: LoginEnv, base: string, email: Value, password: Value, backend: AuthBackend, sign: TokenSigner)
    requires SecretSet(env) && InputEmail(email) != "" && InputPassword(password) != ""
    requires ReplyFor(base, email, password, backend).Replied? && RefusedStatus(ReplyFor(base, email, password, backend).status)
    ensures LoginAt(env, Some(base), email, password, backend, sign) == Rejected(401, NoAccountError)
  {
    AnswersReply(env, base, email, password, backend, sign);
  }

  /** Any other failing status, a failed request or an unreadable reply gives 502. */
  lemma UpstreamErrorIsBadGateway(env: LoginEnv, base: string, email: Value, password: Value, backend: AuthBackend, sign: TokenSigner)
    requires SecretSet(env) && InputEmail(email) != "" && InputPassword(password) != ""
    requires var reply := ReplyFor(base, email, password, backend);
      reply.Threw? || (!StatusOk(reply.status) && !RefusedStatus(reply.status)) || (StatusOk(reply.status) && reply.data.Err?)
    ensures LoginAt(env, Some(base), email, password, backend, sign).Rejected?
    ensures LoginAt(env, Some(base), email, password, backend, sign).status == 502
  {
    AnswersReply(env, base, email, password, backend, sign);
  }

  /** The error text of a failing status: the reply's text, else the status in words. */
  lemma BadGatewayText(env: LoginEnv, base: string, email: Value, password: Value, backend: AuthBackend, sign: TokenSigner)
    requires SecretSet(env) && InputEmail(email) != "" && InputPassword(password) != ""
    requires var reply := ReplyFor(base, email, password, backend);
      reply.Replied? && !StatusOk(reply.status) && !RefusedStatus(reply.status)
    ensures var reply := ReplyFor(base, email, password, backend);
      LoginAt(env, Some(base), email, password, backend, sign).error ==
        if reply.text != "" then reply.text else LoginFailedError + " (" + IntToString(reply.status) + ")"
  {
    AnswersReply(env, base, email, password, backend, sign);
  }

  /** The data of an `ok` reply at `base`, when `json()` succeeds. */
  predicate AcceptedWith(env: LoginEnv, base: string, email: Value, password: Value, backend: AuthBackend, data: Value) {
    SecretSet(env) && InputEmail(email) != "" && InputPassword(password) != ""
    && ReplyFor(base, email, password, backend).Replied?
    && StatusOk(ReplyFor(base, email, password, backend).status)
    && ReplyFor(base, email, password, backend).data == Ok(data)
  }

  /** A reply without a non-empty `jwt`, or without a truthy `user`, gives 401. */
  lemma MissingJwtOrUser(env: LoginEnv, base: string, email: Value, password: Value, backend: AuthBackend, sign: TokenSigner, data: Value)
    requires AcceptedWith(env, base, email, password, backend, data)
    requires ReplyJwt(data).None? || !Truthy(ReplyUser(data))
    ensures LoginAt(env, Some(base), email, password, backend, sign) == Rejected(401, NoAccountError)
  {
    AnswersReply(env, base, email, password, backend, sign);
  }

  /** A blocked user gives 403, whatever their role. */
  lemma BlockedUserRefused(env: LoginEnv, base: string, email: Value, password: Value, backend: AuthBackend, sign: TokenSigner, data: Value)
    requires AcceptedWith(env, base, email, password, backend, data)
    requires ReplyJwt(data).Some? && Truthy(ReplyUser(data)) && Get(ReplyUser(data), "blocked") == Bool(true)
    ensures LoginAt(env, Some(base), email, password, backend, sign) == Rejected(403, DisabledError)
  {
    AnswersReply(env, base, email, password, backend, sign);
  }

  /** An unblocked user whose role is not an editorial one gives 403. */
  lemma RoleOutsideAdminArea(env: LoginEnv, base: string, email: Value, password: Value, backend: AuthBackend, sign: TokenSigner, data: Value)
    requires AcceptedWith(env, base, email, password, backend, data)
    requires ReplyJwt(data).Some? && Truthy(ReplyUser(data)) && Get(ReplyUser(data), "blocked") != Bool(true)
    requires !AllowedRole(UserRole(ReplyUser(data)))
    ensures LoginAt(env, Some(base), email, password, backend, sign) == Rejected(403, UnauthorizedError)
  {
    AnswersReply(env, base, email, password, backend, sign);
  }

  /**
   * Everything passing, the user is signed in with the fields of the Strapi user, the input
   * email standing in for a missing one, a token signed for one day, and Strapi's `jwt`.
   */
  lemma SignedIn(env: LoginEnv, base: string, email: Value, password: Value, backend: AuthBackend, sign: TokenSigner, data: Value)
    requires AcceptedWith(env, base, email, password, backend, data)
    requires ReplyJwt(data).Some? && Truthy(ReplyUser(data)) && Get(ReplyUser(data), "blocked") != Bool(true)
    requires AllowedRole(UserRole(ReplyUser(data)))
    ensures var r := LoginAt(env, Some(base), email, password, backend, sign);
      var u := SessionUserOf(ReplyUser(data), InputEmail(email), UserRole(ReplyUser(data)));
      r == LoggedIn(u, SessionCookies(sign(u, env.adminJwtSecret.value, 86400), ReplyJwt(data).value, env.production))
  {
    AnswersReply(env, base, email, password, backend, sign);
  }

  /** A user without a role is an author, and is admitted. */
  lemma RolelessUserIsAuthor(user: Value)
    requires Get(user, "role") == Undefined
    ensures UserRole(user) == "author" && AllowedRole(UserRole(user))
  {
  }

  /** A role typed `Administrator`, in any ASCII letter case and with spaces around, signs in as `admin`. */
  lemma AdministratorIsAdmin(user: Value, t: string)
    requires Get(Get(user, "role"), "type") == Str(t) && Lower(Trim(t)) == "administrator"
    ensures UserRole(user) == "admin" && AllowedRole(UserRole(user))
  {
  }
}
