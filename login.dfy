/**
 * `POST /api/auth/login`: validate the body, find the user by e-mail, pick the tenant
 * to sign in to among the user's ACTIVE memberships, sign the tokens, and remember the
 * choice as the user's current tenant.
 *
 * The password is validated for length but never compared with anything.
 */
module LoginRoute {

  import opened Wrappers
  import opened Json
  import opened Lists
  import opened Http
  import opened Records
  import opened Store
  import opened Schema
  import opened Session

  datatype LoginInput = LoginInput(email: string, password: string, tenantSlug: Option<string>)

  /** `loginSchema.safeParse(body)`: an object with a well-formed e-mail, a 6+ character password and an optional slug. */
  function ParseLogin(body: Json, isEmail: EmailCheck): (r: Option<LoginInput>)
    ensures r.Some? <==>
      body.JObj? && Email(body, "email", isEmail).Some? && RequiredString(body, "password", 6).Some?
      && OptionalString(body, "tenantSlug", 0).Some?
    ensures r.Some? ==> isEmail(r.value.email) && |r.value.password| >= 6
  {
    if !body.JObj? then None
    else match (Email(body, "email", isEmail), RequiredString(body, "password", 6), OptionalString(body, "tenantSlug", 0))
      case (Some(email), Some(password), Some(slug)) => Some(LoginInput(email, password, slug))
      case _ => None
  }

  /** One of the user's memberships together with its tenant row (`include: { tenant: true }`). */
  datatype Candidate = Candidate(membership: Membership, tenant: Tenant)

  /** The user's memberships with status ACTIVE, in table order, each joined with its tenant. */
  function Candidates(members: seq<Membership>, tenants: seq<Tenant>, userId: string): (cs: seq<Candidate>)
    ensures forall k :: 0 <= k < |cs| ==>
      cs[k].membership in members && cs[k].membership.userId == userId && cs[k].membership.status == MemberStatus.Active
      && TenantById(tenants, cs[k].membership.tenantId) == Some(cs[k].tenant)
  {
    if members == [] then []
    else
      var rest := Candidates(members[1..], tenants, userId);
      var m := members[0];
      var tenant := TenantById(tenants, m.tenantId);
      if m.userId == userId && m.status == MemberStatus.Active && tenant.Some? then
        var cs := [Candidate(m, tenant.value)] + rest;
        assert forall k :: 0 <= k < |rest| ==> cs[k + 1] == rest[k];
        cs
      else rest
  }

  /** Every ACTIVE membership of the user whose tenant exists is a candidate, joined with that tenant. */
  lemma {:induction false} CandidatesComplete(members: seq<Membership>, tenants: seq<Tenant>, userId: string, m: Membership)
    requires m in members && m.userId == userId && m.status == MemberStatus.Active && TenantById(tenants, m.tenantId).Some?
    ensures Candidate(m, TenantById(tenants, m.tenantId).value) in Candidates(members, tenants, userId)
  {
    var head := members[0];
    var rest := Candidates(members[1..], tenants, userId);
    var joined := head.userId == userId && head.status == MemberStatus.Active && TenantById(tenants, head.tenantId).Some?;
    assert Candidates(members, tenants, userId) == if joined then [Candidate(head, TenantById(tenants, head.tenantId).value)] + rest else rest;
    if head != m {
      assert m in members[1..];
      CandidatesComplete(members[1..], tenants, userId, m);
    }
  }

  /** The first candidate in the tenant with the given id. */
  function InTenant(cs: seq<Candidate>, tenantId: string): Option<Candidate> {
    Find(cs, (c: Candidate) => c.membership.tenantId == tenantId)
  }

  /**
   * The tenant to sign in to: the one whose slug was asked for, if a slug was given;
   * otherwise the current tenant when it is still among the candidates, else the first one.
   */
  function SelectTarget(cs: seq<Candidate>, slug: Option<string>, current: Option<string>): (r: Option<Candidate>)
    ensures r.Some? ==> r.value in cs
    ensures Present(slug) ==>
      (r.Some? <==> exists k :: 0 <= k < |cs| && cs[k].tenant.slug == slug.value)
      && (r.Some? ==> r.value.tenant.slug == slug.value)
    ensures !Present(slug) ==> (r.Some? <==> |cs| > 0)
    ensures !Present(slug) && Present(current) && InTenant(cs, current.value).Some? ==>
      r.Some? && r.value.membership.tenantId == current.value
    ensures !Present(slug) && !(Present(current) && InTenant(cs, current.value).Some?) && |cs| > 0 ==>
      r == Some(cs[0])
  {
    if Present(slug) then Find(cs, (c: Candidate) => c.tenant.slug == slug.value)
    else
      var cur := if Present(current) then InTenant(cs, current.value) else None;
      if cur.Some? then cur
      else if |cs| > 0 then Some(cs[0])
      else None
  }

  /** `membership?.role || 'MEMBER'`: the role of the first candidate in the tenant. */
  function RoleIn(cs: seq<Candidate>, tenantId: string): (role: string)
    ensures InTenant(cs, tenantId).Some? ==> role == RoleName(InTenant(cs, tenantId).value.membership.role)
  {
    match InTenant(cs, tenantId)
    case Some(c) => RoleName(c.membership.role)
    case None => "MEMBER"
  }

  /** What the route decides before it signs or writes anything. */
  datatype Plan = Refuse(response: Response<SessionData>) | Grant(user: User, target: Candidate, role: string)

  const ValidationFailed := "请求数据格式错误"

  /**
   * The login decision: validation, user lookup, target tenant, role and secret, in the
   * route's order. `fault` is the store being unavailable: the user lookup throws and the
   * route's catch answers 500.
   */
  function LoginPlan(
    users: seq<User>, members: seq<Membership>, tenants: seq<Tenant>,
    body: Option<Json>, isEmail: EmailCheck, secret: Option<string>, fault: bool): (p: Plan)
    ensures p.Refuse? ==> p.response.Err?
    ensures p.Grant? ==> Present(secret) && !fault
    ensures (body.Some? && ParseLogin(body.value, isEmail).Some? && !fault
             && UserByEmail(users, ParseLogin(body.value, isEmail).value.email).Some?) ==>
      var input := ParseLogin(body.value, isEmail).value;
      var user := UserByEmail(users, input.email).value;
      var cs := Candidates(members, tenants, user.id);
      var target := SelectTarget(cs, input.tenantSlug, user.currentTenantId);
      (target.Some? && Present(secret) ==> p == Grant(user, target.value, RoleIn(cs, target.value.tenant.id)))
      && (target.Some? && !Present(secret) ==> p == Refuse(ServerMisconfigured()))
  {
    if body.None? then Refuse(InternalError())
    else match ParseLogin(body.value, isEmail)
      case None => Refuse(Fail(400, "VALIDATION_ERROR", ValidationFailed))
      case Some(input) =>
        if fault then Refuse(InternalError())
        else match UserByEmail(users, input.email)
        case None => Refuse(Fail(404, "USER_NOT_FOUND", "用户不存在"))
        case Some(user) =>
          var cs := Candidates(members, tenants, user.id);
          match SelectTarget(cs, input.tenantSlug, user.currentTenantId)
          case None =>
            if Present(input.tenantSlug) then Refuse(Fail(403, "TENANT_ACCESS_DENIED", "无权访问指定租户"))
            else Refuse(Fail(403, "NO_TENANT_ACCESS", "用户没有可访问的租户"))
          case Some(target) =>
            if !Present(secret) then Refuse(ServerMisconfigured())
            else Grant(user, target, RoleIn(cs, target.tenant.id))
  }

  /**
   * A login's early refusals, in order: no body, a body that fails the schema, a store
   * that throws on the user lookup, an unknown e-mail.
   */
  lemma LoginPlanRefusals(
    users: seq<User>, members: seq<Membership>, tenants: seq<Tenant>,
    body: Option<Json>, isEmail: EmailCheck, secret: Option<string>, fault: bool)
    ensures body.None? ==> LoginPlan(users, members, tenants, body, isEmail, secret, fault) == Refuse(InternalError())
    ensures body.Some? && ParseLogin(body.value, isEmail).None? ==>
      LoginPlan(users, members, tenants, body, isEmail, secret, fault) == Refuse(Fail(400, "VALIDATION_ERROR", ValidationFailed))
    ensures body.Some? && ParseLogin(body.value, isEmail).Some? && fault ==>
      LoginPlan(users, members, tenants, body, isEmail, secret, fault) == Refuse(InternalError())
    ensures (body.Some? && ParseLogin(body.value, isEmail).Some? && !fault
      && UserByEmail(users, ParseLogin(body.value, isEmail).value.email).None?) ==>
      LoginPlan(users, members, tenants, body, isEmail, secret, fault) == Refuse(Fail(404, "USER_NOT_FOUND", "用户不存在"))
  {
  }

  /**
   * Once the body parses, the store answers and the e-mail names a user, a login with no
   * target tenant is a 403, which one depending on whether a slug was asked for.
   */
  lemma LoginPlanNoTarget(
    users: seq<User>, members: seq<Membership>, tenants: seq<Tenant>,
    body: Json, isEmail: EmailCheck, secret: Option<string>, user: User)
    requires ParseLogin(body, isEmail).Some? && UserByEmail(users, ParseLogin(body, isEmail).value.email) == Some(user)
    ensures var input := ParseLogin(body, isEmail).value;
      var cs := Candidates(members, tenants, user.id);
      var target := SelectTarget(cs, input.tenantSlug, user.currentTenantId);
      var p := LoginPlan(users, members, tenants, Some(body), isEmail, secret, false);
      (target.None? && Present(input.tenantSlug) ==> p == Refuse(Fail(403, "TENANT_ACCESS_DENIED", "无权访问指定租户")))
      && (target.None? && !Present(input.tenantSlug) ==> p == Refuse(Fail(403, "NO_TENANT_ACCESS", "用户没有可访问的租户")))
  {
  }

  /**
   * What a granted login rests on: a user found by the submitted e-mail, one of that
   * user's ACTIVE memberships (the one for the asked slug when a slug was given) and the
   * role held in that tenant.
   */
  lemma LoginPlanFacts(
    users: seq<User>, members: seq<Membership>, tenants: seq<Tenant>,
    body: Option<Json>, isEmail: EmailCheck, secret: Option<string>, fault: bool)
    ensures var p := LoginPlan(users, members, tenants, body, isEmail, secret, fault);
      p.Grant? ==>
        body.Some? && ParseLogin(body.value, isEmail).Some?
        && UserByEmail(users, ParseLogin(body.value, isEmail).value.email) == Some(p.user)
        && Some(p.target) == SelectTarget(Candidates(members, tenants, p.user.id), ParseLogin(body.value, isEmail).value.tenantSlug, p.user.currentTenantId)
        && p.target in Candidates(members, tenants, p.user.id)
        && p.target.membership.status == MemberStatus.Active && p.target.membership.userId == p.user.id
        && p.target.tenant.id == p.target.membership.tenantId
        && p.role == RoleName(InTenant(Candidates(members, tenants, p.user.id), p.target.tenant.id).value.membership.role)
        && (Present(ParseLogin(body.value, isEmail).value.tenantSlug) ==>
              p.target.tenant.slug == ParseLogin(body.value, isEmail).value.tenantSlug.value)
  {
    var p := LoginPlan(users, members, tenants, body, isEmail, secret, fault);
    if p.Grant? {
      var input := ParseLogin(body.value, isEmail).value;
      var cs := Candidates(members, tenants, p.user.id);
      assert SelectTarget(cs, input.tenantSlug, p.user.currentTenantId) == Some(p.target);
      assert p.role == RoleIn(cs, p.target.tenant.id);
      CandidateFacts(members, tenants, p.user.id, p.target);
    }
  }

  /** A candidate is an ACTIVE membership of the user joined with its own tenant, and is found in that tenant. */
  lemma CandidateFacts(members: seq<Membership>, tenants: seq<Tenant>, userId: string, c: Candidate)
    requires c in Candidates(members, tenants, userId)
    ensures c.membership in members && c.membership.status == MemberStatus.Active && c.membership.userId == userId
    ensures c.tenant.id == c.membership.tenantId
    ensures InTenant(Candidates(members, tenants, userId), c.tenant.id).Some?
  {
    var cs := Candidates(members, tenants, userId);
    var k :| 0 <= k < |cs| && cs[k] == c;
    TenantByIdFound(tenants, c.membership.tenantId);
  }

  /** The session a granted login returns. */
  function LoginSession(p: Plan, sign: Signer, secret: string): SessionData
    requires p.Grant?
  {
    Issue(sign, secret, SessionUser(p.user.id, p.user.email, p.user.name, p.target.tenant.id, p.role))
  }

  /**
   * `POST /api/auth/login`: the response follows the plan, and only a granted login whose
   * tenant differs from the stored current tenant writes `currentTenantId`.
   */
  method Login(db: Database, body: Option<Json>, isEmail: EmailCheck, secret: Option<string>, fault: bool, sign: Signer)
    returns (r: Response<SessionData>)
    modifies db`users
    ensures var p := LoginPlan(old(db.users), db.members, db.tenants, body, isEmail, secret, fault);
      (p.Refuse? ==> r == p.response && db.users == old(db.users))
      && (p.Grant? ==>
            r == Ok(LoginSession(p, sign, secret.value))
            && db.users == if p.user.currentTenantId == Some(p.target.tenant.id) then old(db.users)
                           else SetCurrentTenant(old(db.users), p.user.id, p.target.tenant.id))
  {
    var p := LoginPlan(db.users, db.members, db.tenants, body, isEmail, secret, fault);
    if p.Refuse? {
      return p.response;
    }
    var session := LoginSession(p, sign, secret.value);
    if p.user.currentTenantId != Some(p.target.tenant.id) {
      db.users := SetCurrentTenant(db.users, p.user.id, p.target.tenant.id);
    }
    return Ok(session);
  }

  /** The body with a different password. */
  function WithPassword(body: Json, password: string): Json
    requires body.JObj?
  {
    JObj(body.fields["password" := JStr(password)])
  }

  /** Any two passwords of valid length lead to the same decision: the password is never checked. */
  lemma PasswordNeverCompared(
    users: seq<User>, members: seq<Membership>, tenants: seq<Tenant>,
    body: Json, isEmail: EmailCheck, secret: Option<string>, fault: bool, other: string)
    requires body.JObj? && RequiredString(body, "password", 6).Some? && |other| >= 6
    ensures LoginPlan(users, members, tenants, Some(body), isEmail, secret, fault)
         == LoginPlan(users, members, tenants, Some(WithPassword(body, other)), isEmail, secret, fault)
  {
    var body' := WithPassword(body, other);
    assert Field(body', "email") == Field(body, "email");
    assert Field(body', "tenantSlug") == Field(body, "tenantSlug");
    assert Field(body', "password") == Some(JStr(other));
    var i, i' := ParseLogin(body, isEmail), ParseLogin(body', isEmail);
    assert i.Some? ==> i'.Some? && i'.value == i.value.(password := other);
  }

  /** A slug no ACTIVE membership's tenant carries is refused with 403 `TENANT_ACCESS_DENIED`. */
  lemma UnknownSlugRefused(
    users: seq<User>, members: seq<Membership>, tenants: seq<Tenant>,
    body: Json, isEmail: EmailCheck, secret: Option<string>, user: User)
    requires ParseLogin(body, isEmail).Some? && Present(ParseLogin(body, isEmail).value.tenantSlug)
    requires UserByEmail(users, ParseLogin(body, isEmail).value.email) == Some(user)
    requires forall m :: m in members && m.userId == user.id && m.status == MemberStatus.Active ==>
      TenantById(tenants, m.tenantId).None? || TenantById(tenants, m.tenantId).value.slug != ParseLogin(body, isEmail).value.tenantSlug.value
    ensures LoginPlan(users, members, tenants, Some(body), isEmail, secret, false) == Refuse(Fail(403, "TENANT_ACCESS_DENIED", "无权访问指定租户"))
  {
    var cs := Candidates(members, tenants, user.id);
    var slug := ParseLogin(body, isEmail).value.tenantSlug.value;
    forall k | 0 <= k < |cs| ensures cs[k].tenant.slug != slug {
      assert cs[k].membership in members;
    }
  }

  /** A user without any ACTIVE membership cannot sign in without a slug: 403 `NO_TENANT_ACCESS`. */
  lemma NoMembershipRefused(
    users: seq<User>, members: seq<Membership>, tenants: seq<Tenant>,
    body: Json, isEmail: EmailCheck, secret: Option<string>, user: User)
    requires ParseLogin(body, isEmail).Some? && !Present(ParseLogin(body, isEmail).value.tenantSlug)
    requires UserByEmail(users, ParseLogin(body, isEmail).value.email) == Some(user)
    requires forall m :: m in members && m.userId == user.id ==> m.status != MemberStatus.Active
    ensures LoginPlan(users, members, tenants, Some(body), isEmail, secret, false) == Refuse(Fail(403, "NO_TENANT_ACCESS", "用户没有可访问的租户"))
  {
  }

  /**
   * The tenant's own status is not consulted: an ACTIVE membership in a SUSPENDED tenant
   * still signs the user in to it.
   */
  lemma SuspendedTenantStillGranted(email: string, secret: string, isEmail: EmailCheck)
    requires isEmail(email) && secret != ""
    ensures var t := Tenant("t1", "Acme", "acme", TenantStatus.Suspended, Free, "u1");
      var p := LoginPlan(
        [User("u1", email, None, None)],
        [Membership("m1", "t1", "u1", Member, MemberStatus.Active)],
        [t],
        Some(JObj(map["email" := JStr(email), "password" := JStr("secret1")])), isEmail, Some(secret), false);
      p.Grant? && p.target.tenant == t && p.role == "MEMBER"
  {
    var t := Tenant("t1", "Acme", "acme", TenantStatus.Suspended, Free, "u1");
    var user := User("u1", email, None, None);
    var m := Membership("m1", "t1", "u1", Member, MemberStatus.Active);
    var body := JObj(map["email" := JStr(email), "password" := JStr("secret1")]);
    assert |"secret1"| == 7;
    assert ParseLogin(body, isEmail) == Some(LoginInput(email, "secret1", None));
    assert UserByEmail([user], email) == Some(user);
    assert TenantById([t], "t1") == Some(t);
    assert [m][1..] == [];
    assert Candidates([m], [t], "u1") == [Candidate(m, t)];
  }
}
