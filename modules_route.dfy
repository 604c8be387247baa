/**
 * `GET` and `POST /api/modules`, behind `withAuth` and `withTenant`: the same shape as the
 * tasks route, one level up. The list filters by project, type, status and priority and
 * pages the result; the create checks the project through the gateway and writes a `TODO`
 * module.
 */
module ModulesRoute {

  import opened Wrappers
  import opened Json
  import opened Http
  import opened Store
  import opened Schema
  import opened Gateway
  import opened Listing

  const ModuleTypes: seq<string> := ["FEATURE", "COMPONENT", "SERVICE", "UTILITY", "INTEGRATION"]
  const ModuleStatuses: seq<string> := ["TODO", "IN_PROGRESS", "TESTING", "COMPLETED", "BLOCKED"]

  datatype ModuleQuery = ModuleQuery(
    projectId: Option<string>, moduleType: Option<string>, status: Option<string>, priority: Option<string>,
    page: int, limit: int)

  /** `queryModulesSchema.safeParse(queryParams)`: only the three enum parameters can fail. */
  function ParseModuleQuery(params: Params): (r: Option<ModuleQuery>)
    ensures r.None? <==>
      ("type" in params && params["type"] !in ModuleTypes)
      || ("status" in params && params["status"] !in ModuleStatuses)
      || ("priority" in params && params["priority"] !in Priorities)
    ensures r.Some? ==>
      r.value.projectId == Lookup(params, "projectId") && r.value.moduleType == Lookup(params, "type")
      && r.value.status == Lookup(params, "status") && r.value.priority == Lookup(params, "priority")
    ensures r.Some? ==>
      r.value.page == PageParam(Lookup(params, "page")) && r.value.limit == LimitParam(Lookup(params, "limit"))
  {
    var moduleType := EnumParam(params, "type", ModuleTypes);
    var status := EnumParam(params, "status", ModuleStatuses);
    var priority := EnumParam(params, "priority", Priorities);
    if moduleType.None? || status.None? || priority.None? then None
    else Some(ModuleQuery(
      Lookup(params, "projectId"), moduleType.value, status.value, priority.value,
      PageParam(Lookup(params, "page")), LimitParam(Lookup(params, "limit"))))
  }

  /** The filter a query asks for: exactly the truthy filters, each under its own column. */
  predicate ModuleFilter(q: ModuleQuery, w: Where) {
    Filtered(w, "projectId", q.projectId) && Filtered(w, "type", q.moduleType)
    && Filtered(w, "status", q.status) && Filtered(w, "priority", q.priority)
    && w.Keys <= {"projectId", "type", "status", "priority"}
  }

  /** Two filters for the same query are the same filter. */
  lemma ModuleFilterUnique(q: ModuleQuery, w: Where, w': Where)
    requires ModuleFilter(q, w) && ModuleFilter(q, w')
    ensures w == w'
  {
    assert w.Keys == w'.Keys;
  }

  /** The handler's `where`, built one field assignment at a time. */
  method BuildModuleWhere(q: ModuleQuery) returns (w: Where)
    ensures ModuleFilter(q, w)
    ensures TenantKey !in w
  {
    w := map[];
    if Present(q.projectId) {
      w := w["projectId" := Is(JStr(q.projectId.value))];
    }
    if Present(q.moduleType) {
      w := w["type" := Is(JStr(q.moduleType.value))];
    }
    if Present(q.status) {
      w := w["status" := Is(JStr(q.status.value))];
    }
    if Present(q.priority) {
      w := w["priority" := Is(JStr(q.priority.value))];
    }
  }

  /**
   * `GET /api/modules` for the admitted tenant: 400 on a bad enum; otherwise the page of the
   * tenant's matching modules, with `total` counting all of them. The filter handed to the
   * gateway is returned alongside.
   */
  method ListModules(db: Database, tenantId: string, params: Params) returns (r: Response<ListPage>, w: Where)
    ensures ParseModuleQuery(params).None? ==> r == Fail(400, "VALIDATION_ERROR", QueryInvalid)
    ensures ParseModuleQuery(params).Some? ==>
      var q := ParseModuleQuery(params).value;
      ModuleFilter(q, w) && r == Paginate(ScopedFindMany(db.Entities(), ModuleTable, w, tenantId), q.page, q.limit)
    ensures r.Ok? ==> forall k :: 0 <= k < |r.data.rows| ==>
      r.data.rows[k] in db.modules && OwnedBy(r.data.rows[k], tenantId) && Matches(db.Entities(), r.data.rows[k], w)
  {
    var query := ParseModuleQuery(params);
    if query.None? {
      return Fail(400, "VALIDATION_ERROR", QueryInvalid), map[];
    }
    var q := query.value;
    w := BuildModuleWhere(q);
    var gateway := new TenantAwarePrisma(tenantId, db);
    var all := gateway.FindMany(ModuleTable, w);
    r := Paginate(all, q.page, q.limit);
    PageRowsFromAll(all, q.page, q.limit);
    assert w - {TenantKey} == w;
  }

  /** A project filter lists only modules of that project. */
  lemma ListedModuleInProject(ts: Tables, tenantId: string, q: ModuleQuery, w: Where, row: Row)
    requires ModuleFilter(q, w) && Present(q.projectId)
    requires row in ScopedFindMany(ts, ModuleTable, w, tenantId)
    ensures "projectId" in row && row["projectId"] == JStr(q.projectId.value)
  {
    assert "projectId" in w - {TenantKey};
    assert Holds(ts, row, "projectId", w["projectId"]);
  }

  /** Two queries that differ only in `page` and `limit` count the same `total`. */
  lemma TotalIgnoresPaging(ts: Tables, tenantId: string, q: ModuleQuery, w: Where, q': ModuleQuery, w': Where)
    requires q' == q.(page := q'.page, limit := q'.limit)
    requires ModuleFilter(q, w) && ModuleFilter(q', w')
    ensures |ScopedFindMany(ts, ModuleTable, w, tenantId)| == |ScopedFindMany(ts, ModuleTable, w', tenantId)|
  {
    ModuleFilterUnique(q, w, w');
  }

  /** A body `createModuleSchema` accepts, field by field. */
  datatype ModuleInput = ModuleInput(
    name: string, description: Option<string>, moduleType: string, priority: string,
    projectId: string, estimatedHours: Option<real>)

  /**
   * `createModuleSchema.safeParse(body)`: a non-empty `name` and `projectId`, `type` and
   * `priority` from their lists or defaulted, and the optional description and
   * non-negative hours.
   */
  function ParseModule(body: Json): (r: Option<ModuleInput>)
    ensures r.Some? <==>
      RequiredString(body, "name", 1).Some? && OptionalString(body, "description", 0).Some?
      && EnumOrDefault(body, "type", ModuleTypes, "FEATURE").Some?
      && EnumOrDefault(body, "priority", Priorities, "MEDIUM").Some?
      && RequiredString(body, "projectId", 1).Some? && OptionalNonNegative(body, "estimatedHours").Some?
    ensures r.Some? ==> r.value.name != "" && Field(body, "name") == Some(JStr(r.value.name))
    ensures r.Some? ==> r.value.projectId != "" && Field(body, "projectId") == Some(JStr(r.value.projectId))
    ensures r.Some? ==> r.value.moduleType in ModuleTypes && r.value.priority in Priorities
  {
    var name := RequiredString(body, "name", 1);
    var description := OptionalString(body, "description", 0);
    var moduleType := EnumOrDefault(body, "type", ModuleTypes, "FEATURE");
    var priority := EnumOrDefault(body, "priority", Priorities, "MEDIUM");
    var projectId := RequiredString(body, "projectId", 1);
    var hours := OptionalNonNegative(body, "estimatedHours");
    if name.None? || description.None? || moduleType.None? || priority.None? || projectId.None? || hours.None? then None
    else Some(ModuleInput(name.value, description.value, moduleType.value, priority.value, projectId.value, hours.value))
  }

  /** An accepted body's optional fields are taken over exactly when given, with the body's own values. */
  lemma ParsedOptionalFields(body: Json)
    requires ParseModule(body).Some?
    ensures var m := ParseModule(body).value;
      (m.description.Some? <==> Field(body, "description").Some?)
      && (m.description.Some? ==> Field(body, "description") == Some(JStr(m.description.value)))
      && (m.estimatedHours.Some? <==> Field(body, "estimatedHours").Some?)
      && (m.estimatedHours.Some? ==> Field(body, "estimatedHours") == Some(JNum(m.estimatedHours.value)) && m.estimatedHours.value >= 0.0)
  {
  }

  /** `type` and `priority` are the body's when given, FEATURE and MEDIUM otherwise. */
  lemma ParsedDefaults(body: Json)
    requires ParseModule(body).Some?
    ensures var m := ParseModule(body).value;
      (Field(body, "type").None? ==> m.moduleType == "FEATURE")
      && (Field(body, "type").Some? ==> Field(body, "type") == Some(JStr(m.moduleType)))
      && (Field(body, "priority").None? ==> m.priority == "MEDIUM")
      && (Field(body, "priority").Some? ==> Field(body, "priority") == Some(JStr(m.priority)))
  {
  }

  /** A body without a name or without a project id fails validation. */
  lemma NameAndProjectRequired(body: Json)
    requires Field(body, "name").None? || Field(body, "projectId").None?
    ensures ParseModule(body).None?
  {
  }

  /** The columns `createModuleSchema` keeps; anything else in the body is dropped. */
  const ModuleColumns: set<string> := {"name", "description", "type", "priority", "projectId", "estimatedHours"}

  /** `validationResult.data` as the object handed to `create`: the given fields only. */
  function ModuleData(m: ModuleInput): (row: Row)
    ensures row.Keys <= ModuleColumns
    ensures {"name", "type", "priority", "projectId"} <= row.Keys
    ensures row["name"] == JStr(m.name) && row["projectId"] == JStr(m.projectId)
    ensures row["type"] == JStr(m.moduleType) && row["priority"] == JStr(m.priority)
  {
    var hours := if m.estimatedHours.Some? then Some(JNum(m.estimatedHours.value)) else None;
    var optional := With(With(map[], "description", StrOpt(m.description)), "estimatedHours", hours);
    assert optional.Keys <= {"description", "estimatedHours"};
    optional["name" := JStr(m.name)]["type" := JStr(m.moduleType)]["priority" := JStr(m.priority)]["projectId" := JStr(m.projectId)]
  }

  /** The optional columns are present exactly when the body gave them. */
  lemma ModuleDataOptional(m: ModuleInput)
    ensures var row := ModuleData(m);
      ("description" in row <==> m.description.Some?) && ("estimatedHours" in row <==> m.estimatedHours.Some?)
  {
  }

  /** A client cannot set a module's status or tenant through the body: the schema drops both. */
  lemma BodyCannotSetStatusOrTenant(body: Json)
    requires ParseModule(body).Some?
    ensures "status" !in ModuleData(ParseModule(body).value) && TenantKey !in ModuleData(ParseModule(body).value)
  {
  }

  const ProjectNotFound := "项目不存在"

  /**
   * `POST /api/modules` for the admitted tenant: 500 when the body is not JSON, 400 when it
   * fails the schema, 404 `PROJECT_NOT_FOUND` when the gateway finds no project with that
   * id in the tenant, and otherwise the new module: the body's columns, status `TODO`, the
   * tenant's id, appended to the module table. Only a created module changes the store.
   */
  method CreateModule(db: Database, tenantId: string, body: Option<Json>, newId: string) returns (r: Response<Row>)
    modifies db
    ensures db.users == old(db.users) && db.tenants == old(db.tenants) && db.members == old(db.members) && db.quotas == old(db.quotas)
    ensures body.None? ==> r == InternalError() && db.Entities() == old(db.Entities())
    ensures body.Some? && ParseModule(body.value).None? ==>
      r == Fail(400, "VALIDATION_ERROR", BodyInvalid) && db.Entities() == old(db.Entities())
    ensures body.Some? && ParseModule(body.value).Some? ==>
      var data := ModuleData(ParseModule(body.value).value);
      var found := ScopedFindUnique(old(db.Entities()), ProjectTable, map[IdKey := Is(data["projectId"])], tenantId);
      (found.None? ==> r == Fail(404, "PROJECT_NOT_FOUND", ProjectNotFound) && db.Entities() == old(db.Entities()))
      && (found.Some? ==>
            r == Ok(NewRow(data["status" := JStr("TODO")], tenantId, newId))
            && db.Entities() == WithRows(old(db.Entities()), ModuleTable, old(db.modules) + [r.data]))
    ensures r.Ok? ==> r.data["status"] == JStr("TODO") && OwnedBy(r.data, tenantId)
  {
    if body.None? {
      return InternalError();
    }
    var parsed := ParseModule(body.value);
    if parsed.None? {
      return Fail(400, "VALIDATION_ERROR", BodyInvalid);
    }
    var data := ModuleData(parsed.value);
    var gateway := new TenantAwarePrisma(tenantId, db);
    var project := gateway.FindUnique(ProjectTable, map[IdKey := Is(data["projectId"])]);
    if project.None? {
      return Fail(404, "PROJECT_NOT_FOUND", ProjectNotFound);
    }
    var created := gateway.Create(ModuleTable, data["status" := JStr("TODO")], newId);
    return Ok(created);
  }

  /** A project that exists only in other tenants is not found: the create answers 404. */
  lemma ForeignProjectRefused(ts: Tables, tenantId: string, projectId: string)
    requires forall k :: 0 <= k < |ts.projects| && IdKey in ts.projects[k] && ts.projects[k][IdKey] == JStr(projectId) ==>
      !OwnedBy(ts.projects[k], tenantId)
    ensures ScopedFindUnique(ts, ProjectTable, map[IdKey := Is(JStr(projectId))], tenantId).None?
  {
    ForeignIdNotFound(ts, ProjectTable, JStr(projectId), tenantId);
  }
}
