/**
 * The persistent store, as in-memory tables. The tenant tables hold typed rows; the four
 * tenant-scoped entity tables (projects, requirements, modules, tasks) hold rows as maps from
 * column name to JSON value, which is what the generic filter objects of the data gateway act on.
 * Each table is a sequence in insertion order, the order `findFirst` and `findMany` see.
 */
module Store {

  import opened Wrappers
  import opened Json
  import opened Records
  import opened Lists

  /** A row of a tenant-scoped entity table: column name to value. */
  type Row = map<string, Json>

  const TenantKey: string := "tenantId"
  const IdKey: string := "id"

  datatype Table = ProjectTable | RequirementTable | ModuleTable | TaskTable

  /**
   * One condition of a filter object. `Is(v)` is `{ column: v }`; `Through(link, target, fields)`
   * is a relation filter such as `{ module: { projectId } }`: the row of `target` whose id is this
   * row's `link` column has the given column values.
   */
  datatype Cond = Is(value: Json) | Through(link: string, target: Table, fields: map<string, Json>)

  /** A filter object (`where`): every condition must hold. */
  type Where = map<string, Cond>

  datatype Tables = Tables(projects: seq<Row>, requirements: seq<Row>, modules: seq<Row>, tasks: seq<Row>)

  function Rows(ts: Tables, t: Table): seq<Row> {
    match t
    case ProjectTable => ts.projects
    case RequirementTable => ts.requirements
    case ModuleTable => ts.modules
    case TaskTable => ts.tasks
  }

  function WithRows(ts: Tables, t: Table, rows: seq<Row>): (r: Tables)
    ensures Rows(r, t) == rows
    ensures forall u :: u != t ==> Rows(r, u) == Rows(ts, u)
  {
    match t
    case ProjectTable => ts.(projects := rows)
    case RequirementTable => ts.(requirements := rows)
    case ModuleTable => ts.(modules := rows)
    case TaskTable => ts.(tasks := rows)
  }

  predicate FieldsMatch(row: Row, fields: map<string, Json>) {
    forall k :: k in fields ==> k in row && row[k] == fields[k]
  }

  predicate Related(ts: Tables, row: Row, link: string, target: Table, fields: map<string, Json>) {
    link in row &&
    exists i :: 0 <= i < |Rows(ts, target)| &&
      IdKey in Rows(ts, target)[i] && Rows(ts, target)[i][IdKey] == row[link] &&
      FieldsMatch(Rows(ts, target)[i], fields)
  }

  predicate Holds(ts: Tables, row: Row, column: string, c: Cond) {
    match c
    case Is(v) => column in row && row[column] == v
    case Through(link, target, fields) => Related(ts, row, link, target, fields)
  }

  /** Whether a row satisfies every condition of a filter. */
  predicate Matches(ts: Tables, row: Row, where: Where) {
    forall column :: column in where ==> Holds(ts, row, column, where[column])
  }

  /** `findMany({ where })`: the matching rows of table `t`, in table order. */
  function Select(ts: Tables, t: Table, where: Where): (r: seq<Row>)
    ensures |r| <= |Rows(ts, t)|
    ensures forall k :: 0 <= k < |r| ==> r[k] in Rows(ts, t) && Matches(ts, r[k], where)
    ensures forall k :: 0 <= k < |Rows(ts, t)| && Matches(ts, Rows(ts, t)[k], where) ==> Rows(ts, t)[k] in r
  {
    Filter(Rows(ts, t), row => Matches(ts, row, where))
  }

  /** `tenant.findUnique({ where: { id } })`. */
  function TenantById(tenants: seq<Tenant>, id: string): Option<Tenant> {
    Find(tenants, (t: Tenant) => t.id == id)
  }

  /** A tenant found by id is a row of the table with that id. */
  lemma TenantByIdFound(tenants: seq<Tenant>, id: string)
    ensures TenantById(tenants, id).Some? ==> TenantById(tenants, id).value in tenants && TenantById(tenants, id).value.id == id
  {
  }

  /** `tenant.findUnique({ where: { slug } })`. */
  function TenantBySlug(tenants: seq<Tenant>, slug: string): Option<Tenant> {
    Find(tenants, (t: Tenant) => t.slug == slug)
  }

  /** `tenantQuota.findUnique({ where: { tenantId } })`. */
  function QuotaOf(quotas: seq<Quota>, tenantId: string): (r: Option<Quota>)
    ensures r.None? <==> forall k :: 0 <= k < |quotas| ==> quotas[k].tenantId != tenantId
    ensures r.Some? ==> r.value in quotas && r.value.tenantId == tenantId
  {
    if quotas == [] then None
    else if quotas[0].tenantId == tenantId then Some(quotas[0])
    else QuotaOf(quotas[1..], tenantId)
  }

  /** `QuotaOf` peels one row off the front of the table. */
  lemma QuotaOfCons(x: Quota, rest: seq<Quota>, tenantId: string)
    ensures QuotaOf([x] + rest, tenantId) == if x.tenantId == tenantId then Some(x) else QuotaOf(rest, tenantId)
  {
    assert ([x] + rest)[1..] == rest;
  }

  /** `user.findUnique({ where: { email } })`. */
  function UserByEmail(users: seq<User>, email: string): Option<User> {
    Find(users, (u: User) => u.email == email)
  }

  /** The row links the user to the tenant with status ACTIVE. */
  predicate ActiveMemberOf(m: Membership, userId: string, tenantId: string) {
    m.userId == userId && m.tenantId == tenantId && m.status == MemberStatus.Active
  }

  /** `tenantMember.findFirst({ where: { userId, tenantId, status: 'ACTIVE' } })`. */
  function ActiveMembership(members: seq<Membership>, userId: string, tenantId: string): Option<Membership> {
    Find(members, (m: Membership) => ActiveMemberOf(m, userId, tenantId))
  }

  /** `user.findUnique({ where: { id } })`. */
  function UserById(users: seq<User>, id: string): Option<User> {
    Find(users, (u: User) => u.id == id)
  }

  /** `user.update({ where: { id }, data: { currentTenantId } })` on the table. */
  function SetCurrentTenant(users: seq<User>, userId: string, tenantId: string): (us: seq<User>)
    ensures |us| == |users|
    ensures forall k :: 0 <= k < |us| ==>
      us[k].id == users[k].id && us[k].email == users[k].email && us[k].name == users[k].name
    ensures forall k :: 0 <= k < |us| ==>
      us[k].currentTenantId == if users[k].id == userId then Some(tenantId) else users[k].currentTenantId
  {
    seq(|users|, k requires 0 <= k < |users| =>
      if users[k].id == userId then users[k].(currentTenantId := Some(tenantId)) else users[k])
  }

  /** The store, whose tables the middleware and the routes read and update in place. */
  class Database {
    var users: seq<User>
    var tenants: seq<Tenant>
    var members: seq<Membership>
    var quotas: seq<Quota>
    var projects: seq<Row>
    var requirements: seq<Row>
    var modules: seq<Row>
    var tasks: seq<Row>

    constructor (users: seq<User>, tenants: seq<Tenant>, members: seq<Membership>, quotas: seq<Quota>, entities: Tables)
      ensures this.users == users && this.tenants == tenants && this.members == members && this.quotas == quotas
      ensures Entities() == entities
    {
      this.users, this.tenants, this.members, this.quotas := users, tenants, members, quotas;
      projects, requirements, modules, tasks := entities.projects, entities.requirements, entities.modules, entities.tasks;
    }

    /** The four tenant-scoped entity tables. */
    function Entities(): Tables
      reads this
    {
      Tables(projects, requirements, modules, tasks)
    }

    /** Replaces one entity table; every other table is left as it was. */
    method SetRows(t: Table, rows: seq<Row>)
      modifies this
      ensures Entities() == WithRows(old(Entities()), t, rows)
      ensures users == old(users) && tenants == old(tenants) && members == old(members) && quotas == old(quotas)
    {
      match t
      case ProjectTable => projects := rows;
      case RequirementTable => requirements := rows;
      case ModuleTable => modules := rows;
      case TaskTable => tasks := rows;
    }
  }
}
