/**
 * Bearer-token authentication: where the token is taken from, how a verified token
 * becomes the request's user, and the two wrappers that put a handler behind it.
 *
 * Signature checking and expiry belong to the JWT library and are not modelled: a
 * `Verifier` returns the claims of a token it accepts under a secret and None for any
 * token it would throw on.
 */
module Auth {

  import opened Wrappers
  import opened Strs
  import opened Http
  import opened Records

  /** The access-token payload: `{ userId, email, tenantId?, role? }`. */
  datatype Claims = Claims(userId: string, email: string, tenantId: Option<string>, role: Option<string>)

  /** `jsonwebtoken.verify(token, secret)`: the claims, or None where it throws. */
  type Verifier = (string, string) -> Option<Claims>

  /** The user a verified token stands for, field for field. */
  function UserOf(c: Claims): (u: AuthUser)
    ensures u.id == c.userId && u.email == c.email && u.tenantId == c.tenantId && u.role == c.role
  {
    AuthUser(c.userId, c.email, c.tenantId, c.role)
  }

  /** The claims a route signs for a user. */
  function ClaimsOf(u: AuthUser): (c: Claims)
    ensures c.userId == u.id && c.email == u.email && c.tenantId == u.tenantId && c.role == u.role
  {
    Claims(u.id, u.email, u.tenantId, u.role)
  }

  /** Signing a user's claims and reading them back loses nothing, in both directions. */
  lemma ClaimsRoundTrip(u: AuthUser, c: Claims)
    ensures UserOf(ClaimsOf(u)) == u
    ensures ClaimsOf(UserOf(c)) == c
  {
  }

  datatype AuthResult = Authenticated(user: AuthUser) | Rejected(error: string)

  const SecretMissing := "JWT密钥未配置"
  const TokenInvalid := "Token无效"

  /**
   * `verifyToken`: an unset or empty secret and every verification failure are
   * rejections, each with its single message; an accepted token yields its claims.
   */
  function VerifyToken(token: string, secret: Option<string>, verify: Verifier): (r: AuthResult)
    ensures !Present(secret) ==> r == Rejected(SecretMissing)
    ensures Present(secret) && verify(token, secret.value).None? ==> r == Rejected(TokenInvalid)
    ensures Present(secret) && verify(token, secret.value).Some? ==> r == Authenticated(UserOf(verify(token, secret.value).value))
  {
    if !Present(secret) then Rejected(SecretMissing)
    else match verify(token, secret.value)
      case None => Rejected(TokenInvalid)
      case Some(claims) => Authenticated(UserOf(claims))
  }

  const BearerPrefix := "Bearer "

  /**
   * `extractToken`: the rest of an `Authorization: Bearer ...` header, else a non-empty
   * `auth-token` cookie, else nothing.
   */
  function ExtractToken(req: Request): (t: Option<string>)
    ensures var h := Header(req, "authorization");
      h.Some? && StartsWith(h.value, BearerPrefix) ==> t == Some(h.value[|BearerPrefix|..])
    ensures var h := Header(req, "authorization");
      !(h.Some? && StartsWith(h.value, BearerPrefix)) ==>
        (Present(Cookie(req, "auth-token")) ==> t == Cookie(req, "auth-token"))
        && (!Present(Cookie(req, "auth-token")) ==> t.None?)
  {
    var header := Header(req, "authorization");
    if Present(header) && StartsWith(header.value, BearerPrefix) then Some(header.value[7..])
    else
      var cookie := Cookie(req, "auth-token");
      if Present(cookie) then cookie else None
  }

  /** Whatever the cookie says, a bearer header decides, even one with nothing after `Bearer `. */
  lemma BearerTakesPrecedence(req: Request, cookie: string)
    requires Header(req, "authorization").Some? && StartsWith(Header(req, "authorization").value, BearerPrefix)
    ensures ExtractToken(req) == ExtractToken(req.(cookies := req.cookies["auth-token" := cookie]))
  {
  }

  /** What `withAuth` concludes about a request before calling its handler: an authenticated user always comes from a token the verifier accepted. */
  function Authenticate(req: Request, secret: Option<string>, verify: Verifier): (r: AuthResult)
    ensures r.Authenticated? ==>
      Present(ExtractToken(req)) && Present(secret) && verify(ExtractToken(req).value, secret.value) == Some(ClaimsOf(r.user))
  {
    var token := ExtractToken(req);
    if !Present(token) then Rejected("未提供认证令牌") else VerifyToken(token.value, secret, verify)
  }

  /**
   * `withAuth(handler)`: 401 `UNAUTHORIZED` for a missing or empty token and for every
   * rejection by `verifyToken` (an unset secret included); otherwise the handler runs with
   * the token's user and its exceptions become a 500.
   */
  function WithAuth<T>(req: Request, secret: Option<string>, verify: Verifier, handler: (Request, AuthUser) -> Outcome<T>)
    : (o: Outcome<T>)
    ensures o.Returned?
    ensures Authenticate(req, secret, verify).Rejected? ==>
      o.response == Fail(401, "UNAUTHORIZED", Authenticate(req, secret, verify).error)
    ensures !Present(ExtractToken(req)) ==> o.response == Fail(401, "UNAUTHORIZED", "未提供认证令牌")
    ensures Authenticate(req, secret, verify).Authenticated? ==>
      o == Guarded(handler(req, Authenticate(req, secret, verify).user))
  {
    match Authenticate(req, secret, verify)
    case Rejected(error) => Returned(Fail(401, "UNAUTHORIZED", error))
    case Authenticated(user) => Guarded(handler(req, user))
  }

  /** An unset secret is an authentication failure (401), not a server error, and the handler never runs. */
  lemma MissingSecretIsUnauthorized<T>(
    req: Request, verify: Verifier, h1: (Request, AuthUser) -> Outcome<T>, h2: (Request, AuthUser) -> Outcome<T>)
    requires Present(ExtractToken(req))
    ensures WithAuth(req, None, verify, h1) == WithAuth(req, None, verify, h2)
    ensures WithAuth(req, None, verify, h1).response == Fail(401, "UNAUTHORIZED", SecretMissing)
  {
  }

  /** A bare `Bearer ` header shadows a valid cookie and the request is refused as carrying no token. */
  lemma EmptyBearerRefused<T>(req: Request, secret: Option<string>, verify: Verifier, handler: (Request, AuthUser) -> Outcome<T>)
    requires Header(req, "authorization") == Some(BearerPrefix)
    ensures ExtractToken(req) == Some("")
    ensures WithAuth(req, secret, verify, handler).response == Fail(401, "UNAUTHORIZED", "未提供认证令牌")
  {
    assert BearerPrefix[..|BearerPrefix|] == BearerPrefix;
    assert StartsWith(BearerPrefix, BearerPrefix);
    assert BearerPrefix[|BearerPrefix|..] == "";
  }

  /** The user `withOptionalAuth` passes on: the token's user when there is one and it verifies. */
  function OptionalUser(req: Request, secret: Option<string>, verify: Verifier): (u: Option<AuthUser>)
    ensures u.Some? <==> Authenticate(req, secret, verify).Authenticated?
    ensures u.Some? ==> u.value == Authenticate(req, secret, verify).user
  {
    match Authenticate(req, secret, verify)
    case Authenticated(user) => Some(user)
    case Rejected(_) => None
  }

  /**
   * `withOptionalAuth(handler)`: never refuses; the handler always runs, with the user
   * when the token verifies and without one otherwise.
   */
  function WithOptionalAuth<T>(
    req: Request, secret: Option<string>, verify: Verifier, handler: (Request, Option<AuthUser>) -> Outcome<T>)
    : (o: Outcome<T>)
    ensures o.Returned?
    ensures handler(req, OptionalUser(req, secret, verify)).Returned? ==> o == handler(req, OptionalUser(req, secret, verify))
    ensures handler(req, OptionalUser(req, secret, verify)).Threw? ==> o == Returned(InternalError())
    ensures Authenticate(req, secret, verify).Authenticated? ==>
      o == Guarded(handler(req, Some(Authenticate(req, secret, verify).user)))
    ensures !Present(ExtractToken(req)) ==> o == Guarded(handler(req, None))
    ensures Authenticate(req, secret, verify).Rejected? ==> o == Guarded(handler(req, None))
  {
    Guarded(handler(req, OptionalUser(req, secret, verify)))
  }
}
