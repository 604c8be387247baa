/**
 * `GET` and `POST /api/tasks`, behind `withAuth` and `withTenant`: the handlers receive the
 * tenant the middleware admitted and reach the store only through the gateway bound to it.
 * The list filters by module, project (through the task's module), type, status and
 * priority, and pages the result; the create checks the module through the gateway and
 * writes a `TODO` task.
 */
module TasksRoute {

  import opened Wrappers
  import opened Json
  import opened Http
  import opened Store
  import opened Schema
  import opened Gateway
  import opened Listing

  const TaskTypes: seq<string> := ["DEVELOPMENT", "TESTING", "DOCUMENTATION", "DEPLOYMENT", "REFACTORING"]
  const TaskStatuses: seq<string> := ["TODO", "IN_PROGRESS", "REVIEW", "TESTING", "COMPLETED", "BLOCKED"]

  /** The validated query: the filters as given, and `page` and `limit` after their transforms. */
  datatype TaskQuery = TaskQuery(
    moduleId: Option<string>, projectId: Option<string>,
    taskType: Option<string>, status: Option<string>, priority: Option<string>,
    page: int, limit: int)

  /**
   * `queryTasksSchema.safeParse(queryParams)`: only the three enum parameters can fail;
   * the string parameters are taken as they are and unknown parameters are dropped.
   */
  function ParseTaskQuery(params: Params): (r: Option<TaskQuery>)
    ensures r.None? <==>
      ("type" in params && params["type"] !in TaskTypes)
      || ("status" in params && params["status"] !in TaskStatuses)
      || ("priority" in params && params["priority"] !in Priorities)
    ensures r.Some? ==>
      r.value.moduleId == Lookup(params, "moduleId") && r.value.projectId == Lookup(params, "projectId")
      && r.value.taskType == Lookup(params, "type") && r.value.status == Lookup(params, "status")
      && r.value.priority == Lookup(params, "priority")
    ensures r.Some? ==>
      r.value.page == PageParam(Lookup(params, "page")) && r.value.limit == LimitParam(Lookup(params, "limit"))
  {
    var taskType := EnumParam(params, "type", TaskTypes);
    var status := EnumParam(params, "status", TaskStatuses);
    var priority := EnumParam(params, "priority", Priorities);
    if taskType.None? || status.None? || priority.None? then None
    else Some(TaskQuery(
      Lookup(params, "moduleId"), Lookup(params, "projectId"),
      taskType.value, status.value, priority.value,
      PageParam(Lookup(params, "page")), LimitParam(Lookup(params, "limit"))))
  }

  /** `{ module: { projectId } }`: the task's module belongs to the project. */
  function InProject(projectId: string): Cond {
    Through("moduleId", ModuleTable, map["projectId" := JStr(projectId)])
  }

  /**
   * The filter a query asks for: exactly the truthy filters, each under its own column,
   * the project as a condition on the task's module, and nothing else.
   */
  predicate TaskFilter(q: TaskQuery, w: Where) {
    Filtered(w, "moduleId", q.moduleId) && Filtered(w, "type", q.taskType)
    && Filtered(w, "status", q.status) && Filtered(w, "priority", q.priority)
    && ("module" in w <==> Present(q.projectId))
    && ("module" in w ==> w["module"] == InProject(q.projectId.value))
    && w.Keys <= {"moduleId", "type", "status", "priority", "module"}
  }

  /** Two filters for the same query are the same filter. */
  lemma TaskFilterUnique(q: TaskQuery, w: Where, w': Where)
    requires TaskFilter(q, w) && TaskFilter(q, w')
    ensures w == w'
  {
    assert w.Keys == w'.Keys;
  }

  /** The handler's `where`, built one field assignment at a time. */
  method BuildTaskWhere(q: TaskQuery) returns (w: Where)
    ensures TaskFilter(q, w)
    ensures TenantKey !in w
  {
    w := map[];
    if Present(q.moduleId) {
      w := w["moduleId" := Is(JStr(q.moduleId.value))];
    }
    if Present(q.taskType) {
      w := w["type" := Is(JStr(q.taskType.value))];
    }
    if Present(q.status) {
      w := w["status" := Is(JStr(q.status.value))];
    }
    if Present(q.priority) {
      w := w["priority" := Is(JStr(q.priority.value))];
    }
    if Present(q.projectId) {
      w := w["module" := InProject(q.projectId.value)];
    }
  }

  /**
   * `GET /api/tasks` for the admitted tenant: 400 on a bad enum; otherwise the page of the
   * tenant's matching tasks, with `total` counting all of them whatever the page. The filter
   * handed to the gateway is returned alongside.
   */
  method ListTasks(db: Database, tenantId: string, params: Params) returns (r: Response<ListPage>, w: Where)
    ensures ParseTaskQuery(params).None? ==> r == Fail(400, "VALIDATION_ERROR", QueryInvalid)
    ensures ParseTaskQuery(params).Some? ==>
      var q := ParseTaskQuery(params).value;
      TaskFilter(q, w) && r == Paginate(ScopedFindMany(db.Entities(), TaskTable, w, tenantId), q.page, q.limit)
    ensures r.Ok? ==> forall k :: 0 <= k < |r.data.rows| ==>
      r.data.rows[k] in db.tasks && OwnedBy(r.data.rows[k], tenantId) && Matches(db.Entities(), r.data.rows[k], w)
  {
    var query := ParseTaskQuery(params);
    if query.None? {
      return Fail(400, "VALIDATION_ERROR", QueryInvalid), map[];
    }
    var q := query.value;
    w := BuildTaskWhere(q);
    var gateway := new TenantAwarePrisma(tenantId, db);
    var all := gateway.FindMany(TaskTable, w);
    r := Paginate(all, q.page, q.limit);
    PageRowsFromAll(all, q.page, q.limit);
    assert w - {TenantKey} == w;
  }

  /** Two queries that differ only in `page` and `limit` count the same `total`. */
  lemma TotalIgnoresPaging(ts: Tables, tenantId: string, q: TaskQuery, w: Where, q': TaskQuery, w': Where)
    requires q' == q.(page := q'.page, limit := q'.limit)
    requires TaskFilter(q, w) && TaskFilter(q', w')
    ensures |ScopedFindMany(ts, TaskTable, w, tenantId)| == |ScopedFindMany(ts, TaskTable, w', tenantId)|
  {
    TaskFilterUnique(q, w, w');
  }

  /** A listed task in a project filter has a module of that project. */
  lemma ListedTaskInProject(ts: Tables, tenantId: string, q: TaskQuery, w: Where, row: Row)
    requires TaskFilter(q, w) && Present(q.projectId)
    requires row in ScopedFindMany(ts, TaskTable, w, tenantId)
    ensures "moduleId" in row
    ensures exists m :: (m in Rows(ts, ModuleTable) && IdKey in m && m[IdKey] == row["moduleId"]
      && "projectId" in m && m["projectId"] == JStr(q.projectId.value))
  {
    var k :| 0 <= k < |ScopedFindMany(ts, TaskTable, w, tenantId)| && ScopedFindMany(ts, TaskTable, w, tenantId)[k] == row;
    assert "module" in w - {TenantKey};
    assert Holds(ts, row, "module", w["module"]);
    var i :| 0 <= i < |Rows(ts, ModuleTable)| && IdKey in Rows(ts, ModuleTable)[i]
      && Rows(ts, ModuleTable)[i][IdKey] == row["moduleId"]
      && FieldsMatch(Rows(ts, ModuleTable)[i], map["projectId" := JStr(q.projectId.value)]);
    assert "projectId" in map["projectId" := JStr(q.projectId.value)];
  }

  /** A body `createTaskSchema` accepts, field by field. */
  datatype TaskInput = TaskInput(
    title: string, description: Option<string>, taskType: string, priority: string,
    moduleId: string, estimatedHours: Option<real>, techStack: Option<map<string, Json>>, filePath: Option<string>)

  /**
   * `createTaskSchema.safeParse(body)`: a non-empty `title` and `moduleId`, `type` and
   * `priority` from their lists or defaulted, and the optional description, non-negative
   * hours, `techStack` record and file path.
   */
  function ParseTask(body: Json): (r: Option<TaskInput>)
    ensures r.Some? <==>
      RequiredString(body, "title", 1).Some? && OptionalString(body, "description", 0).Some?
      && EnumOrDefault(body, "type", TaskTypes, "DEVELOPMENT").Some?
      && EnumOrDefault(body, "priority", Priorities, "MEDIUM").Some?
      && RequiredString(body, "moduleId", 1).Some? && OptionalNonNegative(body, "estimatedHours").Some?
      && OptionalRecord(body, "techStack").Some? && OptionalString(body, "filePath", 0).Some?
    ensures r.Some? ==> r.value.title != "" && Field(body, "title") == Some(JStr(r.value.title))
    ensures r.Some? ==> r.value.moduleId != "" && Field(body, "moduleId") == Some(JStr(r.value.moduleId))
    ensures r.Some? ==> r.value.taskType in TaskTypes && r.value.priority in Priorities
  {
    var title := RequiredString(body, "title", 1);
    var description := OptionalString(body, "description", 0);
    var taskType := EnumOrDefault(body, "type", TaskTypes, "DEVELOPMENT");
    var priority := EnumOrDefault(body, "priority", Priorities, "MEDIUM");
    var moduleId := RequiredString(body, "moduleId", 1);
    var hours := OptionalNonNegative(body, "estimatedHours");
    var techStack := OptionalRecord(body, "techStack");
    var filePath := OptionalString(body, "filePath", 0);
    if title.None? || description.None? || taskType.None? || priority.None? || moduleId.None?
       || hours.None? || techStack.None? || filePath.None? then None
    else Some(TaskInput(title.value, description.value, taskType.value, priority.value,
      moduleId.value, hours.value, techStack.value, filePath.value))
  }

  /** The columns `createTaskSchema` keeps; anything else in the body is dropped. */
  const TaskColumns: set<string> :=
    {"title", "description", "type", "priority", "moduleId", "estimatedHours", "techStack", "filePath"}

  /** `validationResult.data` as the object handed to `create`: the given fields only. */
  function TaskData(t: TaskInput): (row: Row)
    ensures row.Keys <= TaskColumns
    ensures {"title", "type", "priority", "moduleId"} <= row.Keys
    ensures row["title"] == JStr(t.title) && row["moduleId"] == JStr(t.moduleId)
    ensures row["type"] == JStr(t.taskType) && row["priority"] == JStr(t.priority)
  {
    var hours := if t.estimatedHours.Some? then Some(JNum(t.estimatedHours.value)) else None;
    var techStack := if t.techStack.Some? then Some(JObj(t.techStack.value)) else None;
    var optional := With(With(With(With(map[], "description", StrOpt(t.description)),
      "estimatedHours", hours), "techStack", techStack), "filePath", StrOpt(t.filePath));
    assert optional.Keys <= {"description", "estimatedHours", "techStack", "filePath"};
    optional["title" := JStr(t.title)]["type" := JStr(t.taskType)]["priority" := JStr(t.priority)]["moduleId" := JStr(t.moduleId)]
  }

  /** The optional columns are present exactly when the body gave them. */
  lemma TaskDataOptional(t: TaskInput)
    ensures var row := TaskData(t);
      ("description" in row <==> t.description.Some?) && ("estimatedHours" in row <==> t.estimatedHours.Some?)
      && ("techStack" in row <==> t.techStack.Some?) && ("filePath" in row <==> t.filePath.Some?)
  {
  }

  /** An accepted body's optional fields are taken over exactly when given, with the body's own values. */
  lemma ParsedOptionalFields(body: Json)
    requires ParseTask(body).Some?
    ensures var t := ParseTask(body).value;
      (t.description.Some? <==> Field(body, "description").Some?)
      && (t.description.Some? ==> Field(body, "description") == Some(JStr(t.description.value)))
      && (t.estimatedHours.Some? <==> Field(body, "estimatedHours").Some?)
      && (t.estimatedHours.Some? ==> Field(body, "estimatedHours") == Some(JNum(t.estimatedHours.value)) && t.estimatedHours.value >= 0.0)
      && (t.techStack.Some? <==> Field(body, "techStack").Some?)
      && (t.techStack.Some? ==> Field(body, "techStack") == Some(JObj(t.techStack.value)))
      && (t.filePath.Some? <==> Field(body, "filePath").Some?)
      && (t.filePath.Some? ==> Field(body, "filePath") == Some(JStr(t.filePath.value)))
  {
  }

  /** `type` and `priority` are the body's when given, DEVELOPMENT and MEDIUM otherwise. */
  lemma ParsedDefaults(body: Json)
    requires ParseTask(body).Some?
    ensures var t := ParseTask(body).value;
      (Field(body, "type").None? ==> t.taskType == "DEVELOPMENT")
      && (Field(body, "type").Some? ==> Field(body, "type") == Some(JStr(t.taskType)))
      && (Field(body, "priority").None? ==> t.priority == "MEDIUM")
      && (Field(body, "priority").Some? ==> Field(body, "priority") == Some(JStr(t.priority)))
  {
  }

  /** A client cannot set a task's status or tenant through the body: the schema drops both. */
  lemma BodyCannotSetStatusOrTenant(body: Json)
    requires ParseTask(body).Some?
    ensures "status" !in TaskData(ParseTask(body).value) && TenantKey !in TaskData(ParseTask(body).value)
  {
  }

  /** A body with only a title and a module id is a DEVELOPMENT task of MEDIUM priority. */
  lemma MinimalTaskDefaults(title: string, moduleId: string)
    requires title != "" && moduleId != ""
    ensures ParseTask(JObj(map["title" := JStr(title), "moduleId" := JStr(moduleId)]))
         == Some(TaskInput(title, None, "DEVELOPMENT", "MEDIUM", moduleId, None, None, None))
  {
    var body := JObj(map["title" := JStr(title), "moduleId" := JStr(moduleId)]);
    assert Field(body, "type").None? && Field(body, "priority").None?;
    assert Field(body, "description").None? && Field(body, "filePath").None?;
    assert Field(body, "estimatedHours").None? && Field(body, "techStack").None?;
  }

  /** Negative estimated hours fail validation. */
  lemma NegativeHoursRejected(body: Json, hours: real)
    requires Field(body, "estimatedHours") == Some(JNum(hours)) && hours < 0.0
    ensures ParseTask(body).None?
  {
  }

  const ModuleNotFound := "模块不存在"

  /**
   * `POST /api/tasks` for the admitted tenant: 500 when the body is not JSON, 400 when it
   * fails the schema, 404 `MODULE_NOT_FOUND` when the gateway finds no module with that id
   * in the tenant, and otherwise the new task: the body's columns, status `TODO`, the
   * tenant's id, appended to the task table. Only a created task changes the store.
   */
  method CreateTask(db: Database, tenantId: string, body: Option<Json>, newId: string) returns (r: Response<Row>)
    modifies db
    ensures db.users == old(db.users) && db.tenants == old(db.tenants) && db.members == old(db.members) && db.quotas == old(db.quotas)
    ensures body.None? ==> r == InternalError() && db.Entities() == old(db.Entities())
    ensures body.Some? && ParseTask(body.value).None? ==>
      r == Fail(400, "VALIDATION_ERROR", BodyInvalid) && db.Entities() == old(db.Entities())
    ensures body.Some? && ParseTask(body.value).Some? ==>
      var data := TaskData(ParseTask(body.value).value);
      var found := ScopedFindUnique(old(db.Entities()), ModuleTable, map[IdKey := Is(data["moduleId"])], tenantId);
      (found.None? ==> r == Fail(404, "MODULE_NOT_FOUND", ModuleNotFound) && db.Entities() == old(db.Entities()))
      && (found.Some? ==>
            r == Ok(NewRow(data["status" := JStr("TODO")], tenantId, newId))
            && db.Entities() == WithRows(old(db.Entities()), TaskTable, old(db.tasks) + [r.data]))
    ensures r.Ok? ==> r.data["status"] == JStr("TODO") && OwnedBy(r.data, tenantId)
  {
    if body.None? {
      return InternalError();
    }
    var parsed := ParseTask(body.value);
    if parsed.None? {
      return Fail(400, "VALIDATION_ERROR", BodyInvalid);
    }
    var data := TaskData(parsed.value);
    var gateway := new TenantAwarePrisma(tenantId, db);
    var owner := gateway.FindUnique(ModuleTable, map[IdKey := Is(data["moduleId"])]);
    if owner.None? {
      return Fail(404, "MODULE_NOT_FOUND", ModuleNotFound);
    }
    var task := gateway.Create(TaskTable, data["status" := JStr("TODO")], newId);
    return Ok(task);
  }

  /**
   * A module that exists only in other tenants is not found: the create answers 404 as if
   * the module did not exist at all.
   */
  lemma ForeignModuleRefused(ts: Tables, tenantId: string, moduleId: string)
    requires forall k :: 0 <= k < |ts.modules| && IdKey in ts.modules[k] && ts.modules[k][IdKey] == JStr(moduleId) ==>
      !OwnedBy(ts.modules[k], tenantId)
    ensures ScopedFindUnique(ts, ModuleTable, map[IdKey := Is(JStr(moduleId))], tenantId).None?
  {
    ForeignIdNotFound(ts, ModuleTable, JStr(moduleId), tenantId);
  }
}
