/**
 * The server-side permission evaluator: a fixed role -> permission table, exact
 * membership of the asked permission in the caller's list, and the owner and tenant
 * conditions; plus the three handler wrappers built on it.
 */
module Permission {

  import opened Wrappers
  import opened Http
  import opened Records

  // The permission strings, `resource:action`.
  const ProjectCreate := "project:create"
  const ProjectRead := "project:read"
  const ProjectUpdate := "project:update"
  const ProjectDelete := "project:delete"
  const ProjectManage := "project:manage"
  const RequirementCreate := "requirement:create"
  const RequirementRead := "requirement:read"
  const RequirementUpdate := "requirement:update"
  const RequirementDelete := "requirement:delete"
  const RequirementAnalyze := "requirement:analyze"
  const ModuleCreate := "module:create"
  const ModuleRead := "module:read"
  const ModuleUpdate := "module:update"
  const ModuleDelete := "module:delete"
  const ModuleGenerate := "module:generate"
  const TaskCreate := "task:create"
  const TaskRead := "task:read"
  const TaskUpdate := "task:update"
  const TaskDelete := "task:delete"
  const TaskAssign := "task:assign"
  const TaskGenerateCode := "task:generate_code"
  const TenantRead := "tenant:read"
  const TenantUpdate := "tenant:update"
  const TenantManageUsers := "tenant:manage_users"
  const TenantManageSettings := "tenant:manage_settings"
  const AiAnalyze := "ai:analyze"
  const AiGenerate := "ai:generate"
  const AiUnlimited := "ai:unlimited"

  const AdminPermissions: seq<string> := [
    ProjectCreate, ProjectRead, ProjectUpdate, ProjectDelete, ProjectManage,
    RequirementCreate, RequirementRead, RequirementUpdate, RequirementDelete, RequirementAnalyze,
    ModuleCreate, ModuleRead, ModuleUpdate, ModuleDelete, ModuleGenerate,
    TaskCreate, TaskRead, TaskUpdate, TaskDelete, TaskAssign, TaskGenerateCode,
    TenantRead, TenantUpdate, TenantManageUsers, TenantManageSettings,
    AiAnalyze, AiGenerate, AiUnlimited]

  const ManagerPermissions: seq<string> := [
    ProjectCreate, ProjectRead, ProjectUpdate, ProjectManage,
    RequirementCreate, RequirementRead, RequirementUpdate, RequirementAnalyze,
    ModuleCreate, ModuleRead, ModuleUpdate, ModuleGenerate,
    TaskCreate, TaskRead, TaskUpdate, TaskAssign, TaskGenerateCode,
    TenantRead,
    AiAnalyze, AiGenerate]

  const MemberPermissions: seq<string> := [
    ProjectRead,
    RequirementCreate, RequirementRead, RequirementUpdate, RequirementAnalyze,
    ModuleRead, ModuleUpdate, ModuleGenerate,
    TaskRead, TaskUpdate, TaskGenerateCode,
    TenantRead,
    AiAnalyze, AiGenerate]

  const ViewerPermissions: seq<string> := [ProjectRead, RequirementRead, ModuleRead, TaskRead, TenantRead]

  /** `ROLE_PERMISSIONS[role]`: undefined for any string that is not one of the four role names. */
  function RolePermissions(role: string): (perms: Option<seq<string>>)
    ensures perms.Some? <==> role in {"ADMIN", "MANAGER", "MEMBER", "VIEWER"}
  {
    if role == "ADMIN" then Some(AdminPermissions)
    else if role == "MANAGER" then Some(ManagerPermissions)
    else if role == "MEMBER" then Some(MemberPermissions)
    else if role == "VIEWER" then Some(ViewerPermissions)
    else None
  }

  /** The optional `conditions` argument; a falsy (absent or empty) value skips its check. */
  datatype Conditions = Conditions(ownerId: Option<string>, tenantId: Option<string>)

  const NoConditions := Conditions(None, None)

  datatype PermissionResult = Allowed | Denied(reason: string)

  const NotAuthenticated := "用户未认证"
  const RoleUndefined := "用户角色未定义"
  const InvalidRole := "无效的用户角色"
  const Insufficient := "权限不足"
  const OwnResourcesOnly := "只能访问自己的资源"
  const CrossTenantDenied := "跨租户访问被拒绝"

  /** The two roles that may act on another user's resources. */
  predicate IsPrivileged(role: string) {
    role == "ADMIN" || role == "MANAGER"
  }

  /**
   * Every condition `hasPermission` imposes, in one statement: a signed-in user with a
   * known role whose list contains the permission exactly, who owns the resource or is
   * privileged, and who belongs to the named tenant.
   */
  predicate Grants(user: Option<AuthUser>, permission: string, cond: Conditions) {
    user.Some? && user.value.role.Some? && RolePermissions(user.value.role.value).Some?
    && permission in RolePermissions(user.value.role.value).value
    && (Present(cond.ownerId) && cond.ownerId.value != user.value.id ==> IsPrivileged(user.value.role.value))
    && (Present(cond.tenantId) ==> user.value.tenantId == cond.tenantId)
  }

  /** `hasPermission`: the first failing check names the reason. */
  function HasPermission(user: Option<AuthUser>, permission: string, cond: Conditions): (r: PermissionResult)
    ensures r.Allowed? <==> Grants(user, permission, cond)
    ensures user.None? ==> r == Denied(NotAuthenticated)
    ensures user.Some? && !Present(user.value.role) ==> r == Denied(RoleUndefined)
    ensures user.Some? && Present(user.value.role) && RolePermissions(user.value.role.value).None? ==> r == Denied(InvalidRole)
    ensures r.Denied? && r.reason == CrossTenantDenied ==>
      Present(cond.tenantId) && user.Some? && user.value.tenantId != cond.tenantId
  {
    if user.None? then Denied(NotAuthenticated)
    else if !Present(user.value.role) then Denied(RoleUndefined)
    else
      var role := user.value.role.value;
      match RolePermissions(role)
      case None => Denied(InvalidRole)
      case Some(perms) =>
        if permission !in perms then Denied(Insufficient)
        else if Present(cond.ownerId) && cond.ownerId.value != user.value.id && !IsPrivileged(role) then Denied(OwnResourcesOnly)
        else if Present(cond.tenantId) && Some(cond.tenantId.value) != user.value.tenantId then Denied(CrossTenantDenied)
        else Allowed
  }

  /** The role lists nest: VIEWER within MEMBER within MANAGER within ADMIN. */
  lemma RoleInclusionChain()
    ensures forall p :: p in ViewerPermissions ==> p in MemberPermissions
    ensures forall p :: p in MemberPermissions ==> p in ManagerPermissions
    ensures forall p :: p in ManagerPermissions ==> p in AdminPermissions
  {
  }

  /** The position of a known role in the chain. */
  function Rank(role: string): nat {
    if role == "ADMIN" then 3 else if role == "MANAGER" then 2 else if role == "MEMBER" then 1 else 0
  }

  /** A user with a higher role is allowed everything, without conditions, that a lower one is. */
  lemma HigherRoleAllowed(user: AuthUser, lower: string, higher: string, permission: string)
    requires RolePermissions(higher).Some? && Rank(lower) <= Rank(higher)
    requires HasPermission(Some(user.(role := Some(lower))), permission, NoConditions).Allowed?
    ensures HasPermission(Some(user.(role := Some(higher))), permission, NoConditions).Allowed?
  {
    RoleInclusionChain();
  }

  /** The table's own examples: MEMBER may update tasks but not delete projects; ADMIN may. */
  lemma MemberCases(user: AuthUser)
    requires user.role == Some("MEMBER")
    ensures HasPermission(Some(user), ProjectDelete, NoConditions) == Denied(Insufficient)
    ensures HasPermission(Some(user), TaskUpdate, NoConditions) == Allowed
    ensures HasPermission(Some(user.(role := Some("ADMIN"))), ProjectDelete, NoConditions) == Allowed
  {
  }

  /** VIEWER is allowed exactly the five read permissions. */
  lemma ViewerReadsOnly(user: AuthUser, permission: string)
    requires user.role == Some("VIEWER")
    ensures HasPermission(Some(user), permission, NoConditions).Allowed? <==>
      permission in {ProjectRead, RequirementRead, ModuleRead, TaskRead, TenantRead}
  {
  }

  /** A named tenant other than the caller's is refused for every role, ADMIN included. */
  lemma CrossTenantRefusedForAll(user: AuthUser, permission: string, cond: Conditions)
    requires Present(cond.tenantId) && user.tenantId != cond.tenantId
    ensures HasPermission(Some(user), permission, cond).Denied?
  {
  }

  /** Another user's resource is refused to MEMBER and VIEWER, whatever the permission. */
  lemma OthersResourceNeedsPrivilege(user: AuthUser, permission: string, cond: Conditions)
    requires Present(cond.ownerId) && cond.ownerId.value != user.id
    requires user.role == Some("MEMBER") || user.role == Some("VIEWER")
    ensures HasPermission(Some(user), permission, cond).Denied?
  {
  }

  /** What a permission-guarded handler does with the request and the caller. */
  type UserHandler<!T> = (Request, Option<AuthUser>) -> Outcome<T>

  /**
   * `withPermission(permission, getConditions)`: 403 `FORBIDDEN` with the reason when
   * `hasPermission` refuses, the handler's own outcome otherwise.
   */
  function WithPermission<T>(
    permission: string, getConditions: Option<Request -> Conditions>,
    req: Request, user: Option<AuthUser>, handler: UserHandler<T>): (o: Outcome<T>)
    ensures var cond := if getConditions.Some? then getConditions.value(req) else NoConditions;
      (Grants(user, permission, cond) ==> o == handler(req, user))
      && (!Grants(user, permission, cond) ==>
            o.Returned? && IsErr(o.response, 403, "FORBIDDEN")
            && o.response.error.message == HasPermission(user, permission, cond).reason)
  {
    var cond := if getConditions.Some? then getConditions.value(req) else NoConditions;
    match HasPermission(user, permission, cond)
    case Allowed => handler(req, user)
    case Denied(reason) => Returned(Fail(403, "FORBIDDEN", if reason != "" then reason else Insufficient))
  }

  /** A refused request gets the same response whatever the handler would do. */
  lemma WithPermissionDenialIgnoresHandler<T>(
    permission: string, getConditions: Option<Request -> Conditions>,
    req: Request, user: Option<AuthUser>, h1: UserHandler<T>, h2: UserHandler<T>)
    requires !Grants(user, permission, if getConditions.Some? then getConditions.value(req) else NoConditions)
    ensures WithPermission(permission, getConditions, req, user, h1) == WithPermission(permission, getConditions, req, user, h2)
  {
  }

  /** `withOwnerPermission`'s test: the caller owns the resource or is ADMIN or MANAGER. */
  predicate OwnerPasses(user: Option<AuthUser>, ownerId: string) {
    user.Some? && (user.value.id == ownerId || (user.value.role.Some? && IsPrivileged(user.value.role.value)))
  }

  /** `withOwnerPermission(getOwnerId)`: 403 `FORBIDDEN` unless the owner test passes. */
  function WithOwnerPermission<T>(
    getOwnerId: Request -> string, req: Request, user: Option<AuthUser>, handler: UserHandler<T>): (o: Outcome<T>)
    ensures OwnerPasses(user, getOwnerId(req)) ==> o == handler(req, user)
    ensures !OwnerPasses(user, getOwnerId(req)) ==> o == Returned(Fail(403, "FORBIDDEN", OwnResourcesOnly))
  {
    var ownerId := getOwnerId(req);
    var callerId := if user.Some? then Some(user.value.id) else None;
    var role := if user.Some? && user.value.role.Some? then user.value.role.value else "";
    if callerId != Some(ownerId) && !IsPrivileged(role) then Returned(Fail(403, "FORBIDDEN", OwnResourcesOnly))
    else handler(req, user)
  }

  /** `withTenantPermission(getTenantId)`: 403 `FORBIDDEN` unless the caller's tenant is exactly the one named. */
  function WithTenantPermission<T>(
    getTenantId: Request -> string, req: Request, user: Option<AuthUser>, handler: UserHandler<T>): (o: Outcome<T>)
    ensures user.Some? && user.value.tenantId == Some(getTenantId(req)) ==> o == handler(req, user)
    ensures !(user.Some? && user.value.tenantId == Some(getTenantId(req))) ==>
      o == Returned(Fail(403, "FORBIDDEN", CrossTenantDenied))
  {
    var tenantId := getTenantId(req);
    var callerTenant := if user.Some? then user.value.tenantId else None;
    if callerTenant != Some(tenantId) then Returned(Fail(403, "FORBIDDEN", CrossTenantDenied))
    else handler(req, user)
  }
}
