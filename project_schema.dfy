/**
 * Project and task input validation (src/lib/validations/project.schema.ts).
 *
 * A raw input gives each field as present or absent (values of the wrong
 * JavaScript type are not modelled). String checks run in the order they
 * are declared, so `.min/.max` measure the raw string and `.trim()` then
 * shapes the value that is kept. Date coercion always succeeds here and a
 * date is an integer timestamp; a budget is an integer.
 */
module ProjectSchema {
  import opened Common
  import Text

  datatype ProjectStatus = P_IN_PROGRESS | REVIEW | COMPLETED | PAUSED
  datatype TaskStatus = TODO | IN_PROGRESS | DONE
  datatype Priority = LOW | MEDIUM | HIGH | URGENT

  function ProjectStatusName(s: ProjectStatus): string {
    match s
    case P_IN_PROGRESS => "IN_PROGRESS"
    case REVIEW => "REVIEW"
    case COMPLETED => "COMPLETED"
    case PAUSED => "PAUSED"
  }

  function TaskStatusName(s: TaskStatus): string {
    match s
    case TODO => "TODO"
    case IN_PROGRESS => "IN_PROGRESS"
    case DONE => "DONE"
  }

  function PriorityName(p: Priority): string {
    match p
    case LOW => "LOW"
    case MEDIUM => "MEDIUM"
    case HIGH => "HIGH"
    case URGENT => "URGENT"
  }

  /** `projectStatusEnum`: accepts exactly the four names. */
  function ParseProjectStatus(s: string): (r: Option<ProjectStatus>)
    ensures r.Some? ==> ProjectStatusName(r.value) == s
    ensures forall v :: ProjectStatusName(v) == s ==> r == Some(v)
  {
    if s == "IN_PROGRESS" then Some(P_IN_PROGRESS)
    else if s == "REVIEW" then Some(REVIEW)
    else if s == "COMPLETED" then Some(COMPLETED)
    else if s == "PAUSED" then Some(PAUSED)
    else None
  }

  /** `taskStatusEnum`: accepts exactly the three names. */
  function ParseTaskStatus(s: string): (r: Option<TaskStatus>)
    ensures r.Some? ==> TaskStatusName(r.value) == s
    ensures forall v :: TaskStatusName(v) == s ==> r == Some(v)
  {
    if s == "TODO" then Some(TODO)
    else if s == "IN_PROGRESS" then Some(IN_PROGRESS)
    else if s == "DONE" then Some(DONE)
    else None
  }

  /** `priorityEnum`: accepts exactly the four names. */
  function ParsePriority(s: string): (r: Option<Priority>)
    ensures r.Some? ==> PriorityName(r.value) == s
    ensures forall v :: PriorityName(v) == s ==> r == Some(v)
  {
    if s == "LOW" then Some(LOW)
    else if s == "MEDIUM" then Some(MEDIUM)
    else if s == "HIGH" then Some(HIGH)
    else if s == "URGENT" then Some(URGENT)
    else None
  }

  /** The enums have exactly 4, 3 and 4 members, with distinct names. */
  lemma EnumSizes()
    ensures |set s: ProjectStatus | true :: ProjectStatusName(s)| == 4
    ensures |set s: TaskStatus | true :: TaskStatusName(s)| == 3
    ensures |set p: Priority | true :: PriorityName(p)| == 4
  {
    assert (set s: ProjectStatus | true :: ProjectStatusName(s)) == {"IN_PROGRESS", "REVIEW", "COMPLETED", "PAUSED"} by {
      forall s: ProjectStatus ensures ProjectStatusName(s) in {"IN_PROGRESS", "REVIEW", "COMPLETED", "PAUSED"} {}
      assert ProjectStatusName(P_IN_PROGRESS) == "IN_PROGRESS" && ProjectStatusName(REVIEW) == "REVIEW";
      assert ProjectStatusName(COMPLETED) == "COMPLETED" && ProjectStatusName(PAUSED) == "PAUSED";
    }
    assert (set s: TaskStatus | true :: TaskStatusName(s)) == {"TODO", "IN_PROGRESS", "DONE"} by {
      assert TaskStatusName(TODO) == "TODO" && TaskStatusName(IN_PROGRESS) == "IN_PROGRESS" && TaskStatusName(DONE) == "DONE";
    }
    assert (set p: Priority | true :: PriorityName(p)) == {"LOW", "MEDIUM", "HIGH", "URGENT"} by {
      assert PriorityName(LOW) == "LOW" && PriorityName(MEDIUM) == "MEDIUM";
      assert PriorityName(HIGH) == "HIGH" && PriorityName(URGENT) == "URGENT";
    }
  }

  // ---- field rules ------------------------------------------------------

  /** A length-bounded string, measured before trimming. */
  predicate LengthIn(s: string, lo: nat, hi: nat) {
    lo <= |s| <= hi
  }

  predicate OptionalMaxOk(s: Option<string>, hi: nat) {
    s.None? || |s.value| <= hi
  }

  function TrimOpt(s: Option<string>): Option<string> {
    if s.Some? then Some(Text.Trim(s.value)) else None
  }

  predicate EnumOk<E>(raw: Option<string>, parse: string -> Option<E>) {
    raw.None? || parse(raw.value).Some?
  }

  predicate CuidOk(lib: Lib, s: Option<string>) {
    s.Some? && lib.isCuid(s.value)
  }

  predicate BudgetOk(b: Option<int>) {
    b.None? || b.value > 0
  }

  function Flag(bad: bool, path: string): seq<string> {
    if bad then [path] else []
  }

  /** `z.object({ <path>: z.string().cuid() })`, the shape of every by-id input. */
  function ParseCuid(lib: Lib, path: string, v: Option<string>): (r: Result<Id>)
    ensures r.Ok? <==> v.Some? && lib.isCuid(v.value)
    ensures r.Ok? ==> r.value == v.value
    ensures r.Err? ==> r.error == TrpcError(BAD_REQUEST, ZodCause([path]))
  {
    if v.Some? && lib.isCuid(v.value) then Ok(v.value) else Invalid([path])
  }

  // ---- projects -------------------------------------------------------

  datatype ProjectRaw = ProjectRaw(
    title: Option<string>, description: Option<string>, clientId: Option<string>,
    status: Option<string>, startDate: Option<int>, endDate: Option<int>, budget: Option<int>)

  datatype ProjectInput = ProjectInput(
    title: string, description: Option<string>, clientId: Id, status: ProjectStatus,
    startDate: Option<int>, endDate: Option<int>, budget: Option<int>)

  function ProjectCreateIssues(lib: Lib, raw: ProjectRaw): seq<string> {
    Flag(raw.title.None? || !LengthIn(raw.title.value, 3, 200), "title")
    + Flag(!OptionalMaxOk(raw.description, 2000), "description")
    + Flag(!CuidOk(lib, raw.clientId), "clientId")
    + Flag(!EnumOk(raw.status, ParseProjectStatus), "status")
    + Flag(!BudgetOk(raw.budget), "budget")
  }

  /** `projectCreateSchema.parse`. */
  function ParseProjectCreate(lib: Lib, raw: ProjectRaw): (r: Result<ProjectInput>)
    ensures r.Ok? <==> ProjectCreateIssues(lib, raw) == []
    ensures r.Err? ==> r.error.code == BAD_REQUEST && r.error.cause == ZodCause(ProjectCreateIssues(lib, raw))
    ensures r.Ok? ==> raw.title.Some? && 3 <= |raw.title.value| <= 200 && r.value.title == Text.Trim(raw.title.value)
    ensures r.Ok? ==> r.value.description == TrimOpt(raw.description) && (raw.description.Some? ==> |raw.description.value| <= 2000)
    ensures r.Ok? ==> r.value.budget == raw.budget && (raw.budget.Some? ==> raw.budget.value > 0)
    ensures r.Ok? ==> raw.clientId == Some(r.value.clientId) && lib.isCuid(r.value.clientId)
    ensures r.Ok? ==> r.value.startDate == raw.startDate && r.value.endDate == raw.endDate
    ensures r.Ok? && raw.status.None? ==> r.value.status == P_IN_PROGRESS
    ensures r.Ok? && raw.status.Some? ==> ProjectStatusName(r.value.status) == raw.status.value
  {
    var issues := ProjectCreateIssues(lib, raw);
    if issues != [] then Invalid(issues)
    else
      Ok(ProjectInput(
        Text.Trim(raw.title.value), TrimOpt(raw.description), raw.clientId.value,
        if raw.status.Some? then ParseProjectStatus(raw.status.value).value else P_IN_PROGRESS,
        raw.startDate, raw.endDate, raw.budget))
  }

  /** `projectUpdateSchema`: every create field optional (no defaults), plus a required `id`. */
  datatype ProjectPatch = ProjectPatch(
    id: Id, title: Option<string>, description: Option<string>, clientId: Option<Id>,
    status: Option<ProjectStatus>, startDate: Option<int>, endDate: Option<int>, budget: Option<int>)

  function ProjectUpdateIssues(lib: Lib, id: Option<string>, raw: ProjectRaw): seq<string> {
    Flag(raw.title.Some? && !LengthIn(raw.title.value, 3, 200), "title")
    + Flag(!OptionalMaxOk(raw.description, 2000), "description")
    + Flag(raw.clientId.Some? && !lib.isCuid(raw.clientId.value), "clientId")
    + Flag(!EnumOk(raw.status, ParseProjectStatus), "status")
    + Flag(!BudgetOk(raw.budget), "budget")
    + Flag(!CuidOk(lib, id), "id")
  }

  function ParseProjectUpdate(lib: Lib, id: Option<string>, raw: ProjectRaw): (r: Result<ProjectPatch>)
    ensures r.Ok? <==> ProjectUpdateIssues(lib, id, raw) == []
    ensures r.Err? ==> r.error.code == BAD_REQUEST
    ensures r.Ok? ==> id == Some(r.value.id)
    ensures r.Ok? ==> r.value.title == TrimOpt(raw.title) && r.value.description == TrimOpt(raw.description)
    ensures r.Ok? ==> r.value.clientId == raw.clientId && r.value.budget == raw.budget
    ensures r.Ok? ==> r.value.startDate == raw.startDate && r.value.endDate == raw.endDate
    ensures r.Ok? ==> (r.value.status.Some? <==> raw.status.Some?)
    ensures r.Ok? && raw.status.Some? ==> ProjectStatusName(r.value.status.value) == raw.status.value
  {
    var issues := ProjectUpdateIssues(lib, id, raw);
    if issues != [] then Invalid(issues)
    else
      Ok(ProjectPatch(
        id.value, TrimOpt(raw.title), TrimOpt(raw.description), raw.clientId,
        if raw.status.Some? then ParseProjectStatus(raw.status.value) else None,
        raw.startDate, raw.endDate, raw.budget))
  }

  /**
   * The update schema is the create schema made partial: whatever the create
   * schema accepts, the update schema accepts with any cuid id; an update with
   * no field but the id is accepted; one without an id never is.
   */
  lemma ProjectUpdateIsPartial(lib: Lib, id: string, raw: ProjectRaw)
    requires lib.isCuid(id)
    ensures ParseProjectCreate(lib, raw).Ok? ==> ParseProjectUpdate(lib, Some(id), raw).Ok?
    ensures ParseProjectUpdate(lib, Some(id), ProjectRaw(None, None, None, None, None, None, None)).Ok?
    ensures ParseProjectUpdate(lib, None, raw).Err?
  {
    assert ParseProjectUpdate(lib, None, raw).Err? by {
      assert "id" in ProjectUpdateIssues(lib, None, raw);
    }
  }

  // ---- tasks ----------------------------------------------------------

  datatype TaskRaw = TaskRaw(
    title: Option<string>, description: Option<string>, projectId: Option<string>,
    status: Option<string>, priority: Option<string>, dueDate: Option<int>)

  datatype TaskInput = TaskInput(
    title: string, description: Option<string>, projectId: Id,
    status: TaskStatus, priority: Priority, dueDate: Option<int>)

  function TaskCreateIssues(lib: Lib, raw: TaskRaw): seq<string> {
    Flag(raw.title.None? || !LengthIn(raw.title.value, 3, 300), "title")
    + Flag(!OptionalMaxOk(raw.description, 2000), "description")
    + Flag(!CuidOk(lib, raw.projectId), "projectId")
    + Flag(!EnumOk(raw.status, ParseTaskStatus), "status")
    + Flag(!EnumOk(raw.priority, ParsePriority), "priority")
  }

  /** `taskCreateSchema.parse`. */
  function ParseTaskCreate(lib: Lib, raw: TaskRaw): (r: Result<TaskInput>)
    ensures r.Ok? <==> TaskCreateIssues(lib, raw) == []
    ensures r.Err? ==> r.error.code == BAD_REQUEST && r.error.cause == ZodCause(TaskCreateIssues(lib, raw))
    ensures r.Ok? ==> raw.title.Some? && 3 <= |raw.title.value| <= 300 && r.value.title == Text.Trim(raw.title.value)
    ensures r.Ok? ==> r.value.description == TrimOpt(raw.description)
    ensures r.Ok? ==> raw.projectId == Some(r.value.projectId) && lib.isCuid(r.value.projectId)
    ensures r.Ok? && raw.status.None? ==> r.value.status == TODO
    ensures r.Ok? && raw.priority.None? ==> r.value.priority == MEDIUM
    ensures r.Ok? && raw.status.Some? ==> TaskStatusName(r.value.status) == raw.status.value
    ensures r.Ok? && raw.priority.Some? ==> PriorityName(r.value.priority) == raw.priority.value
    ensures r.Ok? ==> r.value.dueDate == raw.dueDate
  {
    var issues := TaskCreateIssues(lib, raw);
    if issues != [] then Invalid(issues)
    else
      Ok(TaskInput(
        Text.Trim(raw.title.value), TrimOpt(raw.description), raw.projectId.value,
        if raw.status.Some? then ParseTaskStatus(raw.status.value).value else TODO,
        if raw.priority.Some? then ParsePriority(raw.priority.value).value else MEDIUM,
        raw.dueDate))
  }

  /** `taskUpdateSchema`: every create field optional (no defaults), plus a required `id`. */
  datatype TaskPatch = TaskPatch(
    id: Id, title: Option<string>, description: Option<string>, projectId: Option<Id>,
    status: Option<TaskStatus>, priority: Option<Priority>, dueDate: Option<int>)

  function TaskUpdateIssues(lib: Lib, id: Option<string>, raw: TaskRaw): seq<string> {
    Flag(raw.title.Some? && !LengthIn(raw.title.value, 3, 300), "title")
    + Flag(!OptionalMaxOk(raw.description, 2000), "description")
    + Flag(raw.projectId.Some? && !lib.isCuid(raw.projectId.value), "projectId")
    + Flag(!EnumOk(raw.status, ParseTaskStatus), "status")
    + Flag(!EnumOk(raw.priority, ParsePriority), "priority")
    + Flag(!CuidOk(lib, id), "id")
  }

  function ParseTaskUpdate(lib: Lib, id: Option<string>, raw: TaskRaw): (r: Result<TaskPatch>)
    ensures r.Ok? <==> TaskUpdateIssues(lib, id, raw) == []
    ensures r.Err? ==> r.error.code == BAD_REQUEST
    ensures r.Ok? ==> id == Some(r.value.id)
    ensures r.Ok? ==> r.value.title == TrimOpt(raw.title) && r.value.description == TrimOpt(raw.description)
    ensures r.Ok? ==> r.value.projectId == raw.projectId && r.value.dueDate == raw.dueDate
    ensures r.Ok? ==> (r.value.status.Some? <==> raw.status.Some?) && (r.value.priority.Some? <==> raw.priority.Some?)
    ensures r.Ok? && raw.status.Some? ==> TaskStatusName(r.value.status.value) == raw.status.value
    ensures r.Ok? && raw.priority.Some? ==> PriorityName(r.value.priority.value) == raw.priority.value
  {
    var issues := TaskUpdateIssues(lib, id, raw);
    if issues != [] then Invalid(issues)
    else
      Ok(TaskPatch(
        id.value, TrimOpt(raw.title), TrimOpt(raw.description), raw.projectId,
        if raw.status.Some? then ParseTaskStatus(raw.status.value) else None,
        if raw.priority.Some? then ParsePriority(raw.priority.value) else None,
        raw.dueDate))
  }

  /** As for projects: the task update schema is the create schema made partial, with a required id. */
  lemma TaskUpdateIsPartial(lib: Lib, id: string, raw: TaskRaw)
    requires lib.isCuid(id)
    ensures ParseTaskCreate(lib, raw).Ok? ==> ParseTaskUpdate(lib, Some(id), raw).Ok?
    ensures ParseTaskUpdate(lib, Some(id), TaskRaw(None, None, None, None, None, None)).Ok?
    ensures ParseTaskUpdate(lib, None, raw).Err?
  {
    assert ParseTaskUpdate(lib, None, raw).Err? by {
      assert "id" in TaskUpdateIssues(lib, None, raw);
    }
  }
}
