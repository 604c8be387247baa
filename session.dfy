/**
 * What the login, register and switch-tenant routes hand back on success: an access
 * token, a refresh token and the user as seen in the chosen tenant.
 *
 * `jsonwebtoken.sign` is not modelled; it is the `Signer` parameter, given the payload,
 * the secret and the lifetime in seconds.
 */
module Session {

  import opened Wrappers
  import opened Http
  import opened Records
  import opened Auth

  /** The two token payloads: the access claims, and `{ userId, type: 'refresh' }`. */
  datatype Payload = Access(claims: Claims) | Refresh(userId: string)

  /** `expiresIn: '1h'` and `expiresIn: '7d'`. */
  const AccessTtl: nat := 3600
  const RefreshTtl: nat := 604800

  type Signer = (Payload, string, nat) -> string

  /** The `user` object of a session response (the avatar is not modelled). */
  datatype SessionUser = SessionUser(id: string, email: string, name: Option<string>, tenantId: string, role: string)

  datatype SessionData = SessionData(user: SessionUser, token: string, refreshToken: string)

  /** The 500 every route returns when `JWT_SECRET` is unset or empty. */
  function ServerMisconfigured<T>(): Response<T> {
    Fail(500, "SERVER_ERROR", "服务器配置错误")
  }

  /**
   * Signs both tokens for a user acting in a tenant with a role: the access token
   * carries exactly the returned user's id, email, tenant and role.
   */
  function Issue(sign: Signer, secret: string, user: SessionUser): (d: SessionData)
    ensures d.user == user
    ensures d.token == sign(Access(Claims(user.id, user.email, Some(user.tenantId), Some(user.role))), secret, AccessTtl)
    ensures d.refreshToken == sign(Refresh(user.id), secret, RefreshTtl)
  {
    SessionData(user, sign(Access(Claims(user.id, user.email, Some(user.tenantId), Some(user.role))), secret, AccessTtl),
      sign(Refresh(user.id), secret, RefreshTtl))
  }

  /**
   * A verifier that accepts what was signed with the same secret reads the access
   * token back as the very user the response describes.
   */
  lemma IssuedTokenAuthenticates(sign: Signer, verify: Verifier, secret: string, user: SessionUser)
    requires secret != ""
    requires var c := Claims(user.id, user.email, Some(user.tenantId), Some(user.role));
      verify(sign(Access(c), secret, AccessTtl), secret) == Some(c)
    ensures var u := VerifyToken(Issue(sign, secret, user).token, Some(secret), verify).user;
      u.id == user.id && u.email == user.email && u.tenantId == Some(user.tenantId) && u.role == Some(user.role)
  {
  }
}
