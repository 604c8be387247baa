/**
 * The tenant middleware: which tenant a request belongs to, whether the caller is an
 * active member of it, the per-tenant quota counters, and the two handler wrappers
 * `withTenant` and `withTenantQuota`.
 *
 * `fault` stands for the store being unavailable during the request: every lookup
 * throws, and each function catches as the middleware does.
 */
module TenantMiddleware {

  import opened Wrappers
  import opened Strs
  import opened Http
  import opened Records
  import opened Store

  datatype Resolution = Resolved(tenant: Tenant) | Unresolved(error: string)

  const TenantHeader := "x-tenant-id"
  const NotRecognised := "无法识别租户"
  const LookupFailed := "租户识别失败"

  /** Hosts whose first label names the product, not a tenant. */
  const ReservedSubdomains: seq<string> := ["www", "api", "admin", "app", "localhost"]

  /** The first dot-separated label of a host name. */
  function Subdomain(host: string): (sub: string)
    ensures StartsWith(host, sub) && '.' !in sub
    ensures sub == host || host[|sub|] == '.'
  {
    HeadPart(host, '.');
    Split(host, '.')[0]
  }

  /** The slug the host header proposes: present, and its first label not reserved. */
  function HostSlug(req: Request): (slug: Option<string>)
    ensures slug.Some? <==> Present(Header(req, "host")) && Subdomain(Header(req, "host").value) !in ReservedSubdomains
    ensures slug.Some? ==> slug.value == Subdomain(Header(req, "host").value)
  {
    var host := Header(req, "host");
    if Present(host) && Subdomain(host.value) !in ReservedSubdomains then Some(Subdomain(host.value)) else None
  }

  /** The slug in a path of the form `/tenant/<slug>/...`, empty segments ignored. */
  function PathSlug(path: string): (slug: Option<string>)
    ensures slug.Some? ==> slug.value != "" && slug.value in Split(path, '/')
    ensures slug.Some? <==> |Segments(path, '/')| >= 2 && Segments(path, '/')[0] == "tenant"
  {
    var segs := Segments(path, '/');
    if |segs| >= 2 && segs[0] == "tenant" then Some(segs[1]) else None
  }

  /** One strategy's lookup: a store failure aborts, an active tenant wins, anything else falls through. */
  function Lookup(found: Option<Tenant>, fault: bool, next: Resolution): Resolution {
    if fault then Unresolved(LookupFailed)
    else if found.Some? && found.value.status == TenantStatus.Active then Resolved(found.value)
    else next
  }

  /** The path strategy, the last one tried. */
  function ByPath(tenants: seq<Tenant>, req: Request, fault: bool): Resolution {
    match PathSlug(req.path)
    case Some(slug) => Lookup(TenantBySlug(tenants, slug), fault, Unresolved(NotRecognised))
    case None => Unresolved(NotRecognised)
  }

  /** The subdomain strategy, falling through to the path. */
  function ByHost(tenants: seq<Tenant>, req: Request, fault: bool): Resolution {
    match HostSlug(req)
    case Some(slug) => Lookup(TenantBySlug(tenants, slug), fault, ByPath(tenants, req, fault))
    case None => ByPath(tenants, req, fault)
  }

  /**
   * `resolveTenant`: the `x-tenant-id` header, then the host's first label, then
   * `/tenant/<slug>`; each candidate must name an ACTIVE tenant, otherwise the next
   * strategy is tried.
   */
  function ResolveTenant(tenants: seq<Tenant>, req: Request, fault: bool): (r: Resolution)
    ensures r.Resolved? ==> r.tenant in tenants && r.tenant.status == TenantStatus.Active
    ensures r.Resolved? ==>
      (Present(Header(req, TenantHeader)) && r.tenant.id == Header(req, TenantHeader).value)
      || HostSlug(req) == Some(r.tenant.slug)
      || PathSlug(req.path) == Some(r.tenant.slug)
    ensures fault ==> r.Unresolved?
    ensures r.Unresolved? ==> r.error == NotRecognised || (fault && r.error == LookupFailed)
  {
    var header := Header(req, TenantHeader);
    if Present(header) then Lookup(TenantById(tenants, header.value), fault, ByHost(tenants, req, fault))
    else ByHost(tenants, req, fault)
  }

  /** A header that names no ACTIVE tenant (or no header at all) leaves the decision to host and path. */
  predicate HeaderUndecided(tenants: seq<Tenant>, req: Request) {
    var header := Header(req, TenantHeader);
    !Present(header) || TenantById(tenants, header.value).None? || TenantById(tenants, header.value).value.status != TenantStatus.Active
  }

  /**
   * With the header undecided, a host label naming an ACTIVE tenant decides the
   * resolution, whatever the path says.
   */
  lemma HostSlugTakesPrecedence(tenants: seq<Tenant>, req: Request, t: Tenant)
    requires HeaderUndecided(tenants, req)
    requires HostSlug(req) == Some(t.slug) && TenantBySlug(tenants, t.slug) == Some(t) && t.status == TenantStatus.Active
    ensures ResolveTenant(tenants, req, false) == Resolved(t)
  {
  }

  /**
   * With the header undecided and no host label proposed, a `/tenant/<slug>` path naming
   * an ACTIVE tenant resolves to it.
   */
  lemma PathSlugResolves(tenants: seq<Tenant>, req: Request, t: Tenant)
    requires HeaderUndecided(tenants, req) && HostSlug(req).None?
    requires PathSlug(req.path) == Some(t.slug) && TenantBySlug(tenants, t.slug) == Some(t) && t.status == TenantStatus.Active
    ensures ResolveTenant(tenants, req, false) == Resolved(t)
  {
  }

  /**
   * With no fault and no signal naming an ACTIVE tenant (header, host label or path slug),
   * the request is not recognised.
   */
  lemma NoActiveSignalNotRecognised(tenants: seq<Tenant>, req: Request)
    requires HeaderUndecided(tenants, req)
    requires HostSlug(req).Some? ==> var t := TenantBySlug(tenants, HostSlug(req).value); t.None? || t.value.status != TenantStatus.Active
    requires PathSlug(req.path).Some? ==> var t := TenantBySlug(tenants, PathSlug(req.path).value); t.None? || t.value.status != TenantStatus.Active
    ensures ResolveTenant(tenants, req, false) == Unresolved(NotRecognised)
  {
  }

  /** The request with one header removed. */
  function WithoutHeader(req: Request, name: string): Request {
    req.(headers := req.headers - {name})
  }

  /** A header naming an active tenant decides the resolution, whatever host and path say. */
  lemma HeaderTakesPrecedence(tenants: seq<Tenant>, req: Request, t: Tenant)
    requires Header(req, TenantHeader) == Some(t.id) && t.id != ""
    requires TenantById(tenants, t.id) == Some(t) && t.status == TenantStatus.Active
    ensures ResolveTenant(tenants, req, false) == Resolved(t)
  {
  }

  /**
   * A header naming no tenant, or a tenant that is not ACTIVE, is ignored: the request
   * resolves as if the header were absent.
   */
  lemma InactiveHeaderFallsThrough(tenants: seq<Tenant>, req: Request)
    requires Present(Header(req, TenantHeader))
    requires var t := TenantById(tenants, Header(req, TenantHeader).value); t.None? || t.value.status != TenantStatus.Active
    ensures ResolveTenant(tenants, req, false) == ResolveTenant(tenants, WithoutHeader(req, TenantHeader), false)
  {
    var req' := WithoutHeader(req, TenantHeader);
    assert Header(req', TenantHeader).None?;
    assert Header(req', "host") == Header(req, "host");
    assert HostSlug(req') == HostSlug(req);
  }

  /** A reserved first label (`www.`, `api.`, ...) is never looked up: the host header might as well be absent. */
  lemma ReservedSubdomainIgnored(tenants: seq<Tenant>, req: Request, fault: bool)
    requires !Present(Header(req, TenantHeader))
    requires "host" in req.headers && Subdomain(req.headers["host"]) in ReservedSubdomains
    ensures ResolveTenant(tenants, req, fault) == ResolveTenant(tenants, WithoutHeader(req, "host"), fault)
  {
    var req' := WithoutHeader(req, "host");
    assert Header(req', "host").None?;
    assert Header(req', TenantHeader) == Header(req, TenantHeader);
  }

  /**
   * A suspended tenant is not reachable by its subdomain: with no other signal the
   * request is not recognised.
   */
  lemma SuspendedSubdomainNotRecognised(tenants: seq<Tenant>, req: Request, t: Tenant)
    requires !Present(Header(req, TenantHeader)) && PathSlug(req.path).None?
    requires HostSlug(req) == Some(t.slug) && TenantBySlug(tenants, t.slug) == Some(t)
    requires t.status != TenantStatus.Active
    ensures ResolveTenant(tenants, req, false) == Unresolved(NotRecognised)
  {
  }

  /** `validateUserTenant`: an ACTIVE membership of the user in the tenant exists. */
  predicate ValidateUserTenant(members: seq<Membership>, userId: string, tenantId: string, fault: bool)
  {
    !fault && ActiveMembership(members, userId, tenantId).Some?
  }

  /** `validateUserTenant` holds exactly when some membership row links the two with status ACTIVE. */
  lemma ValidateUserTenantIff(members: seq<Membership>, userId: string, tenantId: string, fault: bool)
    ensures ValidateUserTenant(members, userId, tenantId, fault) <==>
      !fault && (exists i :: 0 <= i < |members| && ActiveMemberOf(members[i], userId, tenantId))
  {
    var found := ActiveMembership(members, userId, tenantId);
    if !fault && found.None? {
      forall i | 0 <= i < |members|
        ensures !ActiveMemberOf(members[i], userId, tenantId)
      {
      }
    }
  }

  datatype QuotaCheck = QuotaCheck(allowed: bool, current: int, limit: int)

  /** `checkTenantQuota`: the resource's counters; a missing row or a store failure reads as `(false, 0, 0)`. */
  function CheckTenantQuota(quotas: seq<Quota>, tenantId: string, resource: Resource, fault: bool): (c: QuotaCheck)
    ensures fault || QuotaOf(quotas, tenantId).None? ==> c == QuotaCheck(false, 0, 0)
    ensures !fault && QuotaOf(quotas, tenantId).Some? ==>
      var q := QuotaOf(quotas, tenantId).value;
      q in quotas && q.tenantId == tenantId && c.current == Used(q, resource) && c.limit == Max(q, resource)
    ensures c.allowed <==> c.current < c.limit
  {
    if fault then QuotaCheck(false, 0, 0)
    else match QuotaOf(quotas, tenantId)
      case None => QuotaCheck(false, 0, 0)
      case Some(q) => QuotaCheck(Used(q, resource) < Max(q, resource), Used(q, resource), Max(q, resource))
  }

  /** `{ used<Resource>: { increment: delta } }` applied to one quota row. */
  function Bump(q: Quota, resource: Resource, delta: int): (b: Quota)
    ensures Used(b, resource) == Used(q, resource) + delta
    ensures forall r :: r != resource ==> Used(b, r) == Used(q, r)
    ensures forall r :: Max(b, r) == Max(q, r)
    ensures b.tenantId == q.tenantId
  {
    match resource
    case Projects => q.(usedProjects := q.usedProjects + delta)
    case Users => q.(usedUsers := q.usedUsers + delta)
    case Requirements => q.(usedRequirements := q.usedRequirements + delta)
    case AiRequests => q.(usedAIRequests := q.usedAIRequests + delta)
    case Storage => q.(usedStorage := q.usedStorage + delta)
  }

  /** The quota table after `tenantQuota.update({ where: { tenantId }, ... })`: the tenant's row is bumped. */
  function BumpQuotas(quotas: seq<Quota>, tenantId: string, resource: Resource, delta: int): (qs: seq<Quota>)
    ensures |qs| == |quotas|
    ensures QuotaOf(quotas, tenantId).None? ==> qs == quotas
    ensures QuotaOf(quotas, tenantId).Some? ==> QuotaOf(qs, tenantId) == Some(Bump(QuotaOf(quotas, tenantId).value, resource, delta))
  {
    if quotas == [] then []
    else
      var rest := if quotas[0].tenantId == tenantId then quotas[1..] else BumpQuotas(quotas[1..], tenantId, resource, delta);
      var head := if quotas[0].tenantId == tenantId then Bump(quotas[0], resource, delta) else quotas[0];
      assert quotas == [quotas[0]] + quotas[1..];
      QuotaOfCons(quotas[0], quotas[1..], tenantId);
      QuotaOfCons(head, rest, tenantId);
      [head] + rest
  }

  /** Every other tenant's quota row is untouched by the update. */
  lemma {:induction false} BumpQuotasOtherTenants(quotas: seq<Quota>, tenantId: string, resource: Resource, delta: int, other: string)
    requires other != tenantId
    ensures QuotaOf(BumpQuotas(quotas, tenantId, resource, delta), other) == QuotaOf(quotas, other)
  {
    if quotas != [] {
      var qs := BumpQuotas(quotas, tenantId, resource, delta);
      assert quotas == [quotas[0]] + quotas[1..];
      assert qs == [qs[0]] + qs[1..];
      QuotaOfCons(quotas[0], quotas[1..], other);
      QuotaOfCons(qs[0], qs[1..], other);
      if quotas[0].tenantId != tenantId {
        BumpQuotasOtherTenants(quotas[1..], tenantId, resource, delta, other);
      }
    }
  }

  /**
   * `updateTenantQuotaUsage`: increments one counter of the tenant's quota row and
   * reports success; a missing row or a store failure changes nothing and reports false.
   */
  method UpdateTenantQuotaUsage(db: Database, tenantId: string, resource: Resource, delta: int, fault: bool)
    returns (ok: bool)
    modifies db`quotas
    ensures ok <==> !fault && QuotaOf(old(db.quotas), tenantId).Some?
    ensures db.quotas == if ok then BumpQuotas(old(db.quotas), tenantId, resource, delta) else old(db.quotas)
  {
    if fault || QuotaOf(db.quotas, tenantId).None? {
      return false;
    }
    db.quotas := BumpQuotas(db.quotas, tenantId, resource, delta);
    return true;
  }

  /**
   * A quota check after an update sees the update: the same tenant's same resource
   * moves by `delta`, its limit stays, and every other tenant or resource reads as before.
   */
  lemma CheckAfterUpdate(quotas: seq<Quota>, tenantId: string, resource: Resource, delta: int, other: string, asked: Resource)
    requires QuotaOf(quotas, tenantId).Some?
    ensures var before := CheckTenantQuota(quotas, other, asked, false);
      var after := CheckTenantQuota(BumpQuotas(quotas, tenantId, resource, delta), other, asked, false);
      after.limit == before.limit
      && after.current == (if other == tenantId && asked == resource then before.current + delta else before.current)
  {
    if other != tenantId {
      BumpQuotasOtherTenants(quotas, tenantId, resource, delta, other);
    }
  }

  /**
   * `n` successive `updateTenantQuotaUsage(tenantId, resource, delta)` calls: without a
   * row nothing changes; with one, its counter has moved by `n * delta` in all.
   */
  function Repeat(quotas: seq<Quota>, tenantId: string, resource: Resource, delta: int, n: nat): (r: seq<Quota>)
    ensures QuotaOf(quotas, tenantId).None? ==> r == quotas
    ensures QuotaOf(quotas, tenantId).Some? ==>
      QuotaOf(r, tenantId) == Some(Bump(QuotaOf(quotas, tenantId).value, resource, n * delta))
  {
    if n == 0 then
      if QuotaOf(quotas, tenantId).Some? then BumpZero(QuotaOf(quotas, tenantId).value, resource); quotas
      else quotas
    else
      var prev := Repeat(quotas, tenantId, resource, delta, n - 1);
      if QuotaOf(quotas, tenantId).Some? then
        var q := QuotaOf(quotas, tenantId).value;
        OneMoreTimes(n, delta);
        RepeatStep(prev, tenantId, resource, q, (n - 1) * delta, delta, n * delta);
        BumpQuotas(prev, tenantId, resource, delta)
      else BumpQuotas(prev, tenantId, resource, delta)
  }

  /**
   * After `n` increments of one the counter has grown by `n`, so a tenant starting at
   * `used` with room for `max` is admitted exactly while `used + n < max`.
   */
  lemma RepeatedIncrements(quotas: seq<Quota>, tenantId: string, resource: Resource, n: nat)
    requires QuotaOf(quotas, tenantId).Some?
    ensures var q := QuotaOf(quotas, tenantId).value;
      var c := CheckTenantQuota(Repeat(quotas, tenantId, resource, 1, n), tenantId, resource, false);
      c.current == Used(q, resource) + n && c.limit == Max(q, resource)
      && (c.allowed <==> Used(q, resource) + n < Max(q, resource))
  {
  }

  /** One more update on a row already moved by `a`. */
  lemma RepeatStep(prev: seq<Quota>, tenantId: string, resource: Resource, q: Quota, a: int, delta: int, b: int)
    requires QuotaOf(prev, tenantId) == Some(Bump(q, resource, a)) && b == a + delta
    ensures QuotaOf(BumpQuotas(prev, tenantId, resource, delta), tenantId) == Some(Bump(q, resource, b))
  {
    BumpTwice(q, resource, a, delta);
  }

  lemma OneMoreTimes(n: nat, delta: int)
    requires n > 0
    ensures (n - 1) * delta + delta == n * delta
  {
  }

  /** An increment of zero changes nothing. */
  lemma BumpZero(q: Quota, resource: Resource)
    ensures Bump(q, resource, 0) == q
  {
  }

  /** Two increments of one counter add up. */
  lemma BumpTwice(q: Quota, resource: Resource, a: int, b: int)
    ensures Bump(Bump(q, resource, a), resource, b) == Bump(q, resource, a + b)
  {
  }

  /** What a handler wrapped by `withTenant` receives: the caller (if any) and the resolved tenant. */
  datatype TenantContext = TenantContext(user: Option<AuthUser>, tenantId: string, tenant: Tenant)

  /** `withTenant`'s checks: 404 when no tenant resolves, 403 when a signed-in user is not an active member. */
  function TenantGate(tenants: seq<Tenant>, members: seq<Membership>, req: Request, user: Option<AuthUser>, fault: bool)
    : (g: Gate<TenantContext>)
    ensures g.Deny? && g.status == 404 <==> ResolveTenant(tenants, req, fault).Unresolved?
    ensures g.Deny? && g.status == 404 ==> g.error == ApiError("TENANT_NOT_FOUND", ResolveTenant(tenants, req, fault).error, NoDetails)
    ensures g.Deny? && g.status == 403 <==>
      ResolveTenant(tenants, req, fault).Resolved? && user.Some?
      && !ValidateUserTenant(members, user.value.id, ResolveTenant(tenants, req, fault).tenant.id, fault)
    ensures g.Deny? && g.status == 403 ==> g.error == ApiError("TENANT_ACCESS_DENIED", "无权访问该租户", NoDetails)
    ensures g.Deny? ==> g.status == 404 || g.status == 403
    ensures g.Admit? ==>
      g.context.user == user && g.context.tenant in tenants && g.context.tenant.status == TenantStatus.Active
      && g.context.tenantId == g.context.tenant.id
      && (user.Some? ==> ValidateUserTenant(members, user.value.id, g.context.tenantId, fault))
  {
    match ResolveTenant(tenants, req, fault)
    case Unresolved(error) =>
      Deny(404, ApiError("TENANT_NOT_FOUND", if error != "" then error else "租户不存在", NoDetails))
    case Resolved(tenant) =>
      if user.Some? && !ValidateUserTenant(members, user.value.id, tenant.id, fault) then
        Deny(403, ApiError("TENANT_ACCESS_DENIED", "无权访问该租户", NoDetails))
      else
        Admit(TenantContext(user, tenant.id, tenant))
  }

  /**
   * `withTenant(handler)`: the handler runs only when the gate admits, with the resolved
   * tenant in its context; its exceptions become a 500, so the wrapper never throws.
   */
  function WithTenant<T>(
    tenants: seq<Tenant>, members: seq<Membership>, req: Request, user: Option<AuthUser>, fault: bool,
    handler: (Request, TenantContext) -> Outcome<T>): (o: Outcome<T>)
    ensures o.Returned?
    ensures TenantGate(tenants, members, req, user, fault).Deny? ==>
      o.response == Denial(TenantGate(tenants, members, req, user, fault))
    ensures TenantGate(tenants, members, req, user, fault).Admit? ==>
      var out := handler(req, TenantGate(tenants, members, req, user, fault).context);
      (out.Returned? ==> o == out) && (out.Threw? ==> o.response == InternalError())
  {
    var g := TenantGate(tenants, members, req, user, fault);
    if g.Deny? then Returned(Denial(g)) else Guarded(handler(req, g.context))
  }

  /** A request `withTenant` denies gets the same response whatever the handler would do: the handler is not invoked. */
  lemma WithTenantDenialIgnoresHandler<T>(
    tenants: seq<Tenant>, members: seq<Membership>, req: Request, user: Option<AuthUser>, fault: bool,
    h1: (Request, TenantContext) -> Outcome<T>, h2: (Request, TenantContext) -> Outcome<T>)
    requires TenantGate(tenants, members, req, user, fault).Deny?
    ensures WithTenant(tenants, members, req, user, fault, h1) == WithTenant(tenants, members, req, user, fault, h2)
  {
  }

  /** `withTenantQuota(resource)`'s check: 429 `QUOTA_EXCEEDED` with the counters, unless there is room. */
  function QuotaGate(quotas: seq<Quota>, resource: Resource, ctx: TenantContext, fault: bool): (g: Gate<TenantContext>)
    ensures g.Admit? <==> CheckTenantQuota(quotas, ctx.tenantId, resource, fault).allowed
    ensures g.Admit? ==> g.context == ctx
    ensures g.Deny? ==>
      var c := CheckTenantQuota(quotas, ctx.tenantId, resource, fault);
      g.status == 429 && g.error == ApiError("QUOTA_EXCEEDED", ResourceName(resource) + "配额已用完", Usage(c.current, c.limit))
  {
    var c := CheckTenantQuota(quotas, ctx.tenantId, resource, fault);
    if c.allowed then Admit(ctx)
    else Deny(429, ApiError("QUOTA_EXCEEDED", ResourceName(resource) + "配额已用完", Usage(c.current, c.limit)))
  }

  /**
   * `withTenantQuota(resource)(handler)`: the handler's own outcome when the quota has
   * room, exceptions included (this wrapper does not catch), and 429 otherwise.
   */
  function WithTenantQuota<T>(
    quotas: seq<Quota>, resource: Resource, fault: bool, req: Request, ctx: TenantContext,
    handler: (Request, TenantContext) -> Outcome<T>): (o: Outcome<T>)
    ensures QuotaGate(quotas, resource, ctx, fault).Admit? ==> o == handler(req, ctx)
    ensures QuotaGate(quotas, resource, ctx, fault).Deny? ==> o == Returned(Denial(QuotaGate(quotas, resource, ctx, fault)))
  {
    var g := QuotaGate(quotas, resource, ctx, fault);
    if g.Deny? then Returned(Denial(g)) else handler(req, g.context)
  }

  /**
   * A tenant at or over its limit, or with no quota row, is refused with 429 whatever
   * the handler would do.
   */
  lemma ExhaustedQuotaRefused<T>(
    quotas: seq<Quota>, resource: Resource, req: Request, ctx: TenantContext,
    h1: (Request, TenantContext) -> Outcome<T>, h2: (Request, TenantContext) -> Outcome<T>)
    requires QuotaOf(quotas, ctx.tenantId).None? || Used(QuotaOf(quotas, ctx.tenantId).value, resource) >= Max(QuotaOf(quotas, ctx.tenantId).value, resource)
    ensures WithTenantQuota(quotas, resource, false, req, ctx, h1) == WithTenantQuota(quotas, resource, false, req, ctx, h2)
    ensures IsErr(WithTenantQuota(quotas, resource, false, req, ctx, h1).response, 429, "QUOTA_EXCEEDED")
  {
  }
}
