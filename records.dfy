/** The rows of the tenant tables and the identities that travel in tokens. */
module Records {

  import opened Wrappers

  datatype TenantStatus = Active | Suspended | Inactive
  datatype TenantPlan = Free | Basic | Professional | Enterprise
  datatype TenantRole = Admin | Manager | Member | Viewer
  datatype MemberStatus = Active | Invited | Suspended

  /** The role as the string written into tokens and compared by the permission tables. */
  function RoleName(r: TenantRole): string {
    match r
    case Admin => "ADMIN"
    case Manager => "MANAGER"
    case Member => "MEMBER"
    case Viewer => "VIEWER"
  }

  datatype Tenant = Tenant(id: string, name: string, slug: string, status: TenantStatus, plan: TenantPlan, adminId: string)

  datatype Membership = Membership(id: string, tenantId: string, userId: string, role: TenantRole, status: MemberStatus)

  datatype User = User(id: string, email: string, name: Option<string>, currentTenantId: Option<string>)

  /** The five quota-governed resources. */
  datatype Resource = Projects | Users | Requirements | AiRequests | Storage

  /** One quota row per tenant: five (used, max) counter pairs. */
  datatype Quota = Quota(
    tenantId: string,
    maxProjects: int, maxUsers: int, maxRequirements: int, maxAIRequests: int, maxStorage: int,
    usedProjects: int, usedUsers: int, usedRequirements: int, usedAIRequests: int, usedStorage: int)

  /** The resource as the middleware names it in messages (`projects`, `aiRequests`, ...). */
  function ResourceName(r: Resource): string {
    match r
    case Projects => "projects"
    case Users => "users"
    case Requirements => "requirements"
    case AiRequests => "aiRequests"
    case Storage => "storage"
  }

  function Used(q: Quota, r: Resource): int {
    match r
    case Projects => q.usedProjects
    case Users => q.usedUsers
    case Requirements => q.usedRequirements
    case AiRequests => q.usedAIRequests
    case Storage => q.usedStorage
  }

  function Max(q: Quota, r: Resource): int {
    match r
    case Projects => q.maxProjects
    case Users => q.maxUsers
    case Requirements => q.maxRequirements
    case AiRequests => q.maxAIRequests
    case Storage => q.maxStorage
  }

  /** The authenticated user a verified token yields (`AuthResult['user']`). */
  datatype AuthUser = AuthUser(id: string, email: string, tenantId: Option<string>, role: Option<string>)
}
