/**
 * `POST /api/auth/switch-tenant`, behind `withAuth`: the signed-in user asks for another
 * tenant; an ACTIVE membership in an ACTIVE tenant earns fresh tokens for it, and the
 * tenant becomes the user's current one.
 */
module SwitchTenantRoute {

  import opened Wrappers
  import opened Json
  import opened Http
  import opened Records
  import opened Store
  import opened Schema
  import opened Auth
  import opened Session
  import TenantMiddleware

  /** `switchTenantSchema.safeParse(body)`: a non-empty `tenantId`. */
  function ParseSwitch(body: Json): (r: Option<string>)
    ensures r.Some? <==> body.JObj? && RequiredString(body, "tenantId", 1).Some?
    ensures r.Some? ==> r.value != "" && Field(body, "tenantId") == Some(JStr(r.value))
  {
    if body.JObj? then RequiredString(body, "tenantId", 1) else None
  }

  /** What the handler decides before it signs or writes anything. */
  datatype Plan = Refuse(response: Response<SessionData>) | Switch(membership: Membership, tenant: Tenant, row: User)

  const AccessDenied := "无权访问指定租户"
  const TenantInactive := "租户已被停用"

  /**
   * The handler's checks, in its order: body, membership, the membership's tenant and its
   * status, the secret, and the user row the update needs. `fault` is the store being
   * unavailable: the membership lookup throws and the route's catch answers 500.
   */
  function SwitchPlan(
    users: seq<User>, members: seq<Membership>, tenants: seq<Tenant>,
    user: AuthUser, body: Option<Json>, secret: Option<string>, fault: bool): (p: Plan)
    ensures p.Refuse? ==> p.response.Err?
    ensures body.None? ==> p == Refuse(InternalError())
    ensures body.Some? && ParseSwitch(body.value).None? ==> p == Refuse(Fail(400, "VALIDATION_ERROR", "请求数据格式错误"))
    ensures body.Some? && ParseSwitch(body.value).Some? && fault ==> p == Refuse(InternalError())
    ensures p.Switch? ==>
      body.Some? && ParseSwitch(body.value).Some? && !fault
      && ActiveMembership(members, user.id, ParseSwitch(body.value).value) == Some(p.membership)
      && TenantById(tenants, p.membership.tenantId) == Some(p.tenant)
      && p.tenant.status == TenantStatus.Active && Present(secret) && UserById(users, user.id) == Some(p.row)
    ensures (body.Some? && ParseSwitch(body.value).Some? && !fault
             && ActiveMembership(members, user.id, ParseSwitch(body.value).value).Some?
             && TenantById(tenants, ActiveMembership(members, user.id, ParseSwitch(body.value).value).value.tenantId).Some?
             && TenantById(tenants, ActiveMembership(members, user.id, ParseSwitch(body.value).value).value.tenantId).value.status
                == TenantStatus.Active
             && Present(secret) && UserById(users, user.id).Some?) ==>
      var m := ActiveMembership(members, user.id, ParseSwitch(body.value).value).value;
      p == Switch(m, TenantById(tenants, m.tenantId).value, UserById(users, user.id).value)
  {
    if body.None? then Refuse(InternalError())
    else match ParseSwitch(body.value)
      case None => Refuse(Fail(400, "VALIDATION_ERROR", "请求数据格式错误"))
      case Some(tenantId) =>
        if fault then Refuse(InternalError())
        else match ActiveMembership(members, user.id, tenantId)
        case None => Refuse(Fail(403, "TENANT_ACCESS_DENIED", AccessDenied))
        case Some(m) =>
          match TenantById(tenants, m.tenantId)
          // the included tenant is missing: reading its status throws
          case None => Refuse(InternalError())
          case Some(tenant) =>
            if tenant.status != TenantStatus.Active then Refuse(Fail(403, "TENANT_INACTIVE", TenantInactive))
            else if !Present(secret) then Refuse(ServerMisconfigured())
            else match UserById(users, user.id)
              // `user.update` on a missing row throws
              case None => Refuse(InternalError())
              case Some(row) => Switch(m, tenant, row)
  }

  /**
   * The new session: the tokens carry the caller's id and e-mail from the old token, the
   * chosen tenant and the role held there; the user object is read back from the store.
   */
  function SwitchSession(user: AuthUser, p: Plan, sign: Signer, secret: string): (d: SessionData)
    requires p.Switch?
    ensures d.user == SessionUser(p.row.id, p.row.email, p.row.name, p.membership.tenantId, RoleName(p.membership.role))
    ensures d.token == sign(Access(Claims(user.id, user.email, Some(p.membership.tenantId), Some(RoleName(p.membership.role)))), secret, AccessTtl)
    ensures d.refreshToken == sign(Refresh(user.id), secret, RefreshTtl)
  {
    var role := RoleName(p.membership.role);
    SessionData(
      SessionUser(p.row.id, p.row.email, p.row.name, p.membership.tenantId, role),
      sign(Access(Claims(user.id, user.email, Some(p.membership.tenantId), Some(role))), secret, AccessTtl),
      sign(Refresh(user.id), secret, RefreshTtl))
  }

  /**
   * `POST /api/auth/switch-tenant`: 401 without a valid token; otherwise the response
   * follows the plan, and only a switch writes, setting the caller's `currentTenantId`.
   */
  method SwitchTenant(
    db: Database, req: Request, body: Option<Json>, secret: Option<string>, fault: bool, verify: Verifier, sign: Signer)
    returns (r: Response<SessionData>)
    modifies db`users
    ensures Authenticate(req, secret, verify).Rejected? ==>
      r == Fail(401, "UNAUTHORIZED", Authenticate(req, secret, verify).error) && db.users == old(db.users)
    ensures Authenticate(req, secret, verify).Authenticated? ==>
      var user := Authenticate(req, secret, verify).user;
      var p := SwitchPlan(old(db.users), db.members, db.tenants, user, body, secret, fault);
      (p.Refuse? ==> r == p.response && db.users == old(db.users))
      && (p.Switch? ==>
            r == Ok(SwitchSession(user, p, sign, secret.value))
            && db.users == SetCurrentTenant(old(db.users), user.id, p.membership.tenantId))
  {
    var auth := Authenticate(req, secret, verify);
    if auth.Rejected? {
      return Fail(401, "UNAUTHORIZED", auth.error);
    }
    var p := SwitchPlan(db.users, db.members, db.tenants, auth.user, body, secret, fault);
    if p.Refuse? {
      return p.response;
    }
    var session := SwitchSession(auth.user, p, sign, secret.value);
    db.users := SetCurrentTenant(db.users, auth.user.id, p.membership.tenantId);
    return Ok(session);
  }

  /**
   * A switch lands exactly on the requested tenant: an ACTIVE one the caller holds an
   * ACTIVE membership in, whose role the token carries.
   */
  lemma SwitchLandsOnRequested(
    users: seq<User>, members: seq<Membership>, tenants: seq<Tenant>,
    user: AuthUser, body: Json, secret: Option<string>, fault: bool)
    requires SwitchPlan(users, members, tenants, user, Some(body), secret, fault).Switch?
    ensures var p := SwitchPlan(users, members, tenants, user, Some(body), secret, fault);
      var tenantId := ParseSwitch(body).value;
      p.membership in members && ActiveMemberOf(p.membership, user.id, tenantId)
      && p.tenant in tenants && p.tenant.id == tenantId && p.tenant.status == TenantStatus.Active
      && p.row in users && p.row.id == user.id
  {
    var p := SwitchPlan(users, members, tenants, user, Some(body), secret, fault);
    TenantByIdFound(tenants, p.membership.tenantId);
  }

  /**
   * The membership check comes first: a caller without an ACTIVE membership learns
   * nothing about the tenant's status.
   */
  lemma NoMembershipHidesStatus(
    users: seq<User>, members: seq<Membership>, tenants: seq<Tenant>,
    user: AuthUser, tenantId: string, secret: Option<string>)
    requires tenantId != ""
    requires forall k :: 0 <= k < |members| ==> !ActiveMemberOf(members[k], user.id, tenantId)
    ensures SwitchPlan(users, members, tenants, user, Some(JObj(map["tenantId" := JStr(tenantId)])), secret, false)
         == Refuse(Fail(403, "TENANT_ACCESS_DENIED", AccessDenied))
  {
    var body := JObj(map["tenantId" := JStr(tenantId)]);
    assert Field(body, "tenantId") == Some(JStr(tenantId));
  }

  /** An ACTIVE membership in a tenant that is not ACTIVE is refused with 403 `TENANT_INACTIVE`. */
  lemma InactiveTenantRefused(
    users: seq<User>, members: seq<Membership>, tenants: seq<Tenant>,
    user: AuthUser, body: Json, secret: Option<string>, m: Membership, t: Tenant)
    requires ParseSwitch(body).Some?
    requires ActiveMembership(members, user.id, ParseSwitch(body).value) == Some(m)
    requires TenantById(tenants, m.tenantId) == Some(t) && t.status != TenantStatus.Active
    ensures SwitchPlan(users, members, tenants, user, Some(body), secret, false) == Refuse(Fail(403, "TENANT_INACTIVE", TenantInactive))
  {
  }

  /**
   * Behind `withAuth` the route's own secret check never fires: a caller who got
   * through authentication did so with the secret set.
   */
  lemma SecretCheckUnreachable(
    users: seq<User>, members: seq<Membership>, tenants: seq<Tenant>,
    req: Request, body: Option<Json>, secret: Option<string>, fault: bool, verify: Verifier)
    requires Authenticate(req, secret, verify).Authenticated?
    ensures SwitchPlan(users, members, tenants, Authenticate(req, secret, verify).user, body, secret, fault) != Refuse(ServerMisconfigured())
  {
  }

  /**
   * After a switch the new token works against the tenant middleware: a verifier that
   * accepts what it signed reads back the new tenant, that tenant resolves from the
   * token's tenant id, and the caller passes the membership check there.
   */
  lemma SwitchedTokenUsable(
    users: seq<User>, members: seq<Membership>, tenants: seq<Tenant>,
    user: AuthUser, body: Json, secret: Option<string>, fault: bool, sign: Signer, verify: Verifier)
    requires SwitchPlan(users, members, tenants, user, Some(body), secret, fault).Switch?
    requires forall c: Claims, key: string, ttl: nat :: verify(sign(Access(c), key, ttl), key) == Some(c)
    ensures var p := SwitchPlan(users, members, tenants, user, Some(body), secret, fault);
      var d := SwitchSession(user, p, sign, secret.value);
      var v := VerifyToken(d.token, secret, verify);
      v.Authenticated? && v.user.tenantId == Some(p.tenant.id) && v.user.role == Some(RoleName(p.membership.role))
      && TenantMiddleware.ResolveTenant(tenants, Request(map[TenantMiddleware.TenantHeader := p.tenant.id], map[], "/"), false)
           == TenantMiddleware.Resolved(p.tenant)
      && TenantMiddleware.ValidateUserTenant(members, user.id, p.tenant.id, false)
  {
    var p := SwitchPlan(users, members, tenants, user, Some(body), secret, fault);
    var req := Request(map[TenantMiddleware.TenantHeader := p.tenant.id], map[], "/");
    TenantMiddleware.HeaderTakesPrecedence(tenants, req, p.tenant);
  }
}
