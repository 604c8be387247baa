/**
 * `POST /api/auth/register`: validate the body, refuse a taken e-mail or slug, then in
 * one transaction create the user, a FREE tenant administered by that user, the ADMIN
 * membership and the starter quota, and make the new tenant the user's current one.
 *
 * The generated ids (`cuid()`) and the clock (`Date.now()`) are parameters; so are the
 * store being unavailable (`fault`: the first lookup throws) and a transaction failure
 * (`txFault`), which rolls every write back; both end in the route's 500.
 */
module RegisterRoute {

  import opened Wrappers
  import opened Json
  import opened Strs
  import opened Http
  import opened Records
  import opened Store
  import opened Schema
  import opened Session
  import opened Slug
  import TenantMiddleware

  datatype RegisterInput = RegisterInput(email: string, password: string, name: Option<string>, tenantName: Option<string>)

  /** `registerSchema.safeParse(body)`: e-mail, 6+ character password, and non-empty `name` and `tenantName` when given. */
  function ParseRegister(body: Json, isEmail: EmailCheck): (r: Option<RegisterInput>)
    ensures r.Some? <==>
      body.JObj? && Email(body, "email", isEmail).Some? && RequiredString(body, "password", 6).Some?
      && OptionalString(body, "name", 1).Some? && OptionalString(body, "tenantName", 1).Some?
    ensures r.Some? ==>
      isEmail(r.value.email) && |r.value.password| >= 6
      && (r.value.name.Some? ==> r.value.name.value != "") && (r.value.tenantName.Some? ==> r.value.tenantName.value != "")
  {
    if !body.JObj? then None
    else match (Email(body, "email", isEmail), RequiredString(body, "password", 6),
                OptionalString(body, "name", 1), OptionalString(body, "tenantName", 1))
      case (Some(email), Some(password), Some(name), Some(tenantName)) => Some(RegisterInput(email, password, name, tenantName))
      case _ => None
  }

  /** The slug of the new tenant: derived from the tenant name, or `tenant-<milliseconds>` without one. */
  function TenantSlugFor(tenantName: Option<string>, now: nat): (slug: string)
    ensures Present(tenantName) ==> slug == Slugify(tenantName.value)
    ensures !Present(tenantName) ==> slug == "tenant-" + Decimal(now)
  {
    if Present(tenantName) then Slugify(tenantName.value) else "tenant-" + Decimal(now)
  }

  /** Either way the slug is well formed. */
  lemma TenantSlugWellFormed(tenantName: Option<string>, now: nat)
    ensures IsSlug(TenantSlugFor(tenantName, now))
  {
    if Present(tenantName) {
      SlugifyIsSlug(tenantName.value);
    } else {
      var d := Decimal(now);
      var s := "tenant-" + d;
      assert forall k :: 7 <= k < |s| ==> s[k] == d[k - 7];
    }
  }

  /** `name || email.split('@')[0]`. */
  function DisplayName(input: RegisterInput): (name: string)
    ensures Present(input.name) ==> name == input.name.value
    ensures !Present(input.name) ==>
      (StartsWith(input.email, name) && '@' !in name && (name == input.email || input.email[|name|] == '@'))
  {
    HeadPart(input.email, '@');
    if Present(input.name) then input.name.value else Split(input.email, '@')[0]
  }

  /** The ids the store generates for the new rows. */
  datatype NewIds = NewIds(userId: string, tenantId: string, memberId: string)

  /** The four rows the transaction leaves behind, the user already pointing at the new tenant. */
  datatype NewRows = NewRows(user: User, tenant: Tenant, membership: Membership, quota: Quota)

  /** The FREE plan's starting limits: 10 projects, 5 users, 100 requirements, 1000 AI requests, 1 GiB; nothing used. */
  function StarterQuota(tenantId: string): (q: Quota)
    ensures q.tenantId == tenantId
    ensures Max(q, Projects) == 10 && Max(q, Users) == 5 && Max(q, Requirements) == 100
      && Max(q, AiRequests) == 1000 && Max(q, Storage) == 1073741824
    ensures forall r :: Used(q, r) == 0
  {
    Quota(tenantId, 10, 5, 100, 1000, 1073741824, 0, 0, 0, 0, 0)
  }

  /** The rows the transaction creates, under the generated ids. */
  function InitialRows(input: RegisterInput, slug: string, ids: NewIds): (rows: NewRows)
    ensures rows.user.id == ids.userId && rows.tenant.id == ids.tenantId && rows.membership.id == ids.memberId
    ensures rows.quota == StarterQuota(ids.tenantId)
  {
    var name := DisplayName(input);
    var tenantName := if Present(input.tenantName) then input.tenantName.value else name + "的工作空间";
    NewRows(
      User(ids.userId, input.email, Some(name), Some(ids.tenantId)),
      Tenant(ids.tenantId, tenantName, slug, TenantStatus.Active, Free, ids.userId),
      Membership(ids.memberId, ids.tenantId, ids.userId, Admin, MemberStatus.Active),
      StarterQuota(ids.tenantId))
  }

  /**
   * The rows fit together: the user administers the tenant, holds its one ADMIN
   * membership, and has it as current tenant; the tenant is ACTIVE on the FREE plan.
   */
  lemma InitialRowsFit(input: RegisterInput, slug: string, ids: NewIds)
    ensures var rows := InitialRows(input, slug, ids);
      rows.tenant.adminId == rows.user.id && rows.user.currentTenantId == Some(rows.tenant.id)
      && rows.tenant.status == TenantStatus.Active && rows.tenant.plan == Free && rows.tenant.slug == slug
      && ActiveMemberOf(rows.membership, rows.user.id, rows.tenant.id) && rows.membership.role == Admin
      && rows.quota.tenantId == rows.tenant.id && rows.user.email == input.email
      && rows.user.name == Some(DisplayName(input))
      && rows.tenant.name == (if Present(input.tenantName) then input.tenantName.value else DisplayName(input) + "的工作空间")
  {
  }

  /** What the route decides before the transaction. */
  datatype Plan = Refuse(response: Response<SessionData>) | Create(input: RegisterInput, slug: string)

  /** The registration decision: validation, the e-mail and slug lookups, in the route's order. */
  function RegisterPlan(users: seq<User>, tenants: seq<Tenant>, body: Option<Json>, isEmail: EmailCheck, now: nat, fault: bool): (p: Plan)
    ensures body.None? ==> p == Refuse(InternalError())
    ensures body.Some? && ParseRegister(body.value, isEmail).None? ==>
      p == Refuse(Fail(400, "VALIDATION_ERROR", "请求数据格式错误"))
    ensures body.Some? && ParseRegister(body.value, isEmail).Some? && fault ==> p == Refuse(InternalError())
    ensures p.Create? ==>
      body.Some? && ParseRegister(body.value, isEmail) == Some(p.input) && !fault
      && UserByEmail(users, p.input.email).None? && TenantBySlug(tenants, p.slug).None?
      && p.slug == TenantSlugFor(p.input.tenantName, now)
    ensures (body.Some? && ParseRegister(body.value, isEmail).Some? && !fault
             && UserByEmail(users, ParseRegister(body.value, isEmail).value.email).None?
             && TenantBySlug(tenants, TenantSlugFor(ParseRegister(body.value, isEmail).value.tenantName, now)).None?) ==>
      p == Create(ParseRegister(body.value, isEmail).value, TenantSlugFor(ParseRegister(body.value, isEmail).value.tenantName, now))
    ensures p.Refuse? ==> p.response.Err?
  {
    if body.None? then Refuse(InternalError())
    else match ParseRegister(body.value, isEmail)
      case None => Refuse(Fail(400, "VALIDATION_ERROR", "请求数据格式错误"))
      case Some(input) =>
        if fault then Refuse(InternalError())
        else if UserByEmail(users, input.email).Some? then Refuse(Fail(409, "USER_EXISTS", "用户已存在"))
        else
          var slug := TenantSlugFor(input.tenantName, now);
          if TenantBySlug(tenants, slug).Some? then Refuse(Fail(409, "TENANT_EXISTS", "租户名称已被使用"))
          else Create(input, slug)
  }

  /** A taken e-mail is refused with 409 `USER_EXISTS` before any slug is looked at. */
  lemma ExistingEmailRefused(users: seq<User>, tenants: seq<Tenant>, body: Json, isEmail: EmailCheck, now: nat, u: User)
    requires ParseRegister(body, isEmail).Some? && u in users && u.email == ParseRegister(body, isEmail).value.email
    ensures RegisterPlan(users, tenants, Some(body), isEmail, now, false) == Refuse(Fail(409, "USER_EXISTS", "用户已存在"))
  {
    var k :| 0 <= k < |users| && users[k] == u;
    assert UserByEmail(users, u.email).Some?;
  }

  /** A slug some tenant already has is refused with 409 `TENANT_EXISTS`. */
  lemma TakenSlugRefused(users: seq<User>, tenants: seq<Tenant>, body: Json, isEmail: EmailCheck, now: nat, t: Tenant)
    requires ParseRegister(body, isEmail).Some? && UserByEmail(users, ParseRegister(body, isEmail).value.email).None?
    requires t in tenants && t.slug == TenantSlugFor(ParseRegister(body, isEmail).value.tenantName, now)
    ensures RegisterPlan(users, tenants, Some(body), isEmail, now, false) == Refuse(Fail(409, "TENANT_EXISTS", "租户名称已被使用"))
  {
    var k :| 0 <= k < |tenants| && tenants[k] == t;
    assert TenantBySlug(tenants, t.slug).Some?;
  }

  /** The generated ids collide with no existing row (otherwise the store rejects the inserts). */
  predicate FreshIds(users: seq<User>, tenants: seq<Tenant>, members: seq<Membership>, quotas: seq<Quota>, ids: NewIds) {
    (forall k :: 0 <= k < |users| ==> users[k].id != ids.userId)
    && TenantById(tenants, ids.tenantId).None?
    && (forall k :: 0 <= k < |members| ==> members[k].id != ids.memberId)
    && QuotaOf(quotas, ids.tenantId).None?
  }

  /** The session a completed registration returns: the new user as ADMIN of the new tenant. */
  function RegisterSession(rows: NewRows, sign: Signer, secret: string): SessionData {
    Issue(sign, secret, SessionUser(rows.user.id, rows.user.email, rows.user.name, rows.tenant.id, "ADMIN"))
  }

  /**
   * `POST /api/auth/register`. A refusal or a failed transaction writes nothing. A
   * completed transaction appends exactly the four initial rows, and they stay even
   * when the secret turns out to be missing afterwards.
   */
  method Register(
    db: Database, body: Option<Json>, isEmail: EmailCheck, now: nat, ids: NewIds, fault: bool, txFault: bool,
    secret: Option<string>, sign: Signer) returns (r: Response<SessionData>)
    modifies db`users, db`tenants, db`members, db`quotas
    ensures var p := RegisterPlan(old(db.users), old(db.tenants), body, isEmail, now, fault);
      var committed := p.Create? && !txFault && FreshIds(old(db.users), old(db.tenants), old(db.members), old(db.quotas), ids);
      (!committed ==>
         db.users == old(db.users) && db.tenants == old(db.tenants) && db.members == old(db.members) && db.quotas == old(db.quotas)
         && r == (if p.Refuse? then p.response else InternalError()))
      && (committed ==>
            var rows := InitialRows(p.input, p.slug, ids);
            db.users == old(db.users) + [rows.user] && db.tenants == old(db.tenants) + [rows.tenant]
            && db.members == old(db.members) + [rows.membership] && db.quotas == old(db.quotas) + [rows.quota]
            && r == (if Present(secret) then Ok(RegisterSession(rows, sign, secret.value)) else ServerMisconfigured()))
  {
    var p := RegisterPlan(db.users, db.tenants, body, isEmail, now, fault);
    if p.Refuse? {
      return p.response;
    }
    if txFault || !FreshIds(db.users, db.tenants, db.members, db.quotas, ids) {
      return InternalError();
    }
    var rows := InitialRows(p.input, p.slug, ids);
    ghost var before := db.users;
    db.users := db.users + [rows.user.(currentTenantId := None)];
    db.tenants := db.tenants + [rows.tenant];
    db.members := db.members + [rows.membership];
    db.quotas := db.quotas + [rows.quota];
    db.users := SetCurrentTenant(db.users, ids.userId, ids.tenantId);
    assert db.users == before + [rows.user];
    if !Present(secret) {
      return ServerMisconfigured();
    }
    return Ok(RegisterSession(rows, sign, secret.value));
  }

  /**
   * Right after registration the new user can use the new tenant: the tenant resolves
   * by its id, the user passes the membership check, and the project quota has room.
   */
  lemma RegisteredTenantUsable(
    users: seq<User>, tenants: seq<Tenant>, members: seq<Membership>, quotas: seq<Quota>,
    input: RegisterInput, slug: string, ids: NewIds)
    requires FreshIds(users, tenants, members, quotas, ids) && ids.tenantId != ""
    ensures var rows := InitialRows(input, slug, ids);
      var req := Request(map[TenantMiddleware.TenantHeader := ids.tenantId], map[], "/");
      TenantMiddleware.ResolveTenant(tenants + [rows.tenant], req, false) == TenantMiddleware.Resolved(rows.tenant)
      && TenantMiddleware.ValidateUserTenant(members + [rows.membership], ids.userId, ids.tenantId, false)
      && TenantMiddleware.CheckTenantQuota(quotas + [rows.quota], ids.tenantId, Projects, false)
           == TenantMiddleware.QuotaCheck(true, 0, 10)
  {
    var rows := InitialRows(input, slug, ids);
    TenantByIdAppend(tenants, rows.tenant);
    QuotaOfAppend(quotas, rows.quota);
    TenantMiddleware.ValidateUserTenantIff(members + [rows.membership], ids.userId, ids.tenantId, false);
    assert (members + [rows.membership])[|members|] == rows.membership;
  }

  /** A new tenant whose id no row has is found by that id once appended. */
  lemma TenantByIdAppend(tenants: seq<Tenant>, t: Tenant)
    requires TenantById(tenants, t.id).None?
    ensures TenantById(tenants + [t], t.id) == Some(t)
  {
    var ts := tenants + [t];
    assert ts[|tenants|] == t;
    assert forall k :: 0 <= k < |tenants| ==> ts[k] == tenants[k];
  }

  /** A quota row for a tenant that had none is found once appended. */
  lemma QuotaOfAppend(quotas: seq<Quota>, q: Quota)
    requires QuotaOf(quotas, q.tenantId).None?
    ensures QuotaOf(quotas + [q], q.tenantId) == Some(q)
  {
    var qs := quotas + [q];
    assert qs[|quotas|] == q;
    assert forall k :: 0 <= k < |quotas| ==> qs[k] == quotas[k];
  }
}
