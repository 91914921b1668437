/**
 * The tasks router (src/server/api/routers/tasks.ts). A task is read
 * through its project's access rule; an admin creates, edits and deletes
 * tasks, while the project's client may only move a task to another
 * status.
 */
module TasksRouter {
  import opened Common
  import opened Trpc
  import opened ProjectSchema
  import opened Store
  import Listing
  import ProjectsRouter

  function ByProjectIssues(lib: Lib, projectId: Option<string>, status: Option<string>): seq<string> {
    Flag(!CuidOk(lib, projectId), "projectId") + Flag(!EnumOk(status, ParseTaskStatus), "status")
  }

  /** The optional status filter, once parsed. */
  function StatusFilter(status: Option<string>): Option<TaskStatus>
    requires EnumOk(status, ParseTaskStatus)
  {
    if status.Some? then ParseTaskStatus(status.value) else None
  }

  predicate Matches(t: Task, pid: Id, status: Option<TaskStatus>) {
    t.projectId == pid && (status.Some? ==> t.status == status.value)
  }

  /**
   * `tasks.getByProject`: NOT_FOUND for an unknown project, FORBIDDEN for a
   * caller who may not read it, otherwise the project's tasks, optionally
   * only those with the given status.
   */
  method GetByProject(db: Db, lib: Lib, ctx: Ctx, projectId: Option<string>, status: Option<string>)
    returns (r: Result<seq<Task>>)
    requires db.Valid()
    ensures !HasUserId(ctx) ==> r == Fail(UNAUTHORIZED)
    ensures HasUserId(ctx) && ByProjectIssues(lib, projectId, status) != [] ==> r == Invalid(ByProjectIssues(lib, projectId, status))
    ensures HasUserId(ctx) && ByProjectIssues(lib, projectId, status) == [] && projectId.value !in db.projects ==> r == Fail(NOT_FOUND)
    ensures r.Ok? <==> HasUserId(ctx) && ByProjectIssues(lib, projectId, status) == [] && projectId.value in db.projects
                       && ProjectsRouter.CanAccess(CallerOf(ctx), db.projects[projectId.value])
    ensures r.Ok? ==> Listing.NoDup(r.value)
    ensures r.Ok? ==> forall t :: t in r.value <==> t in db.tasks.Values && Matches(t, projectId.value, StatusFilter(status))
  {
    var g := AuthGate(ctx);
    if g.Err? {
      return Err(g.error);
    }
    var issues := ByProjectIssues(lib, projectId, status);
    if issues != [] {
      return Invalid(issues);
    }
    var pid := projectId.value;
    if pid !in db.projects {
      return Fail(NOT_FOUND);
    }
    if !ProjectsRouter.CanAccess(g.value, db.projects[pid]) {
      return Fail(FORBIDDEN);
    }
    var filter := StatusFilter(status);
    var rows := Listing.SelectRows(db.tasks, (t: Task) => t.id, (t: Task) => Matches(t, pid, filter), (t: Task) => 0);
    return Ok(rows);
  }

  /** The row `task.create` stores for a parsed input. */
  function NewTask(id: Id, input: TaskInput, now: int): Task {
    Task(id, input.title, input.description, input.status, input.priority, input.projectId, input.dueDate, now, now)
  }

  /** `tasks.create`: NOT_FOUND when the project does not exist. */
  method Create(db: Db, lib: Lib, ctx: Ctx, raw: TaskRaw, newId: Id, now: int) returns (r: Result<Task>)
    requires db.Valid() && newId !in db.tasks
    modifies db
    ensures db.Valid()
    ensures db.users == old(db.users) && db.projects == old(db.projects) && db.leads == old(db.leads)
    ensures !HasAdminRole(ctx) ==> r == Fail(FORBIDDEN)
    ensures HasAdminRole(ctx) && ParseTaskCreate(lib, raw).Err? ==> r == Err(ParseTaskCreate(lib, raw).error)
    ensures HasAdminRole(ctx) && ParseTaskCreate(lib, raw).Ok? && ParseTaskCreate(lib, raw).value.projectId !in db.projects ==> r == Fail(NOT_FOUND)
    ensures r.Ok? <==> HasAdminRole(ctx) && ParseTaskCreate(lib, raw).Ok? && ParseTaskCreate(lib, raw).value.projectId in db.projects
    ensures r.Ok? ==> r.value == NewTask(newId, ParseTaskCreate(lib, raw).value, now)
    ensures r.Ok? ==> db.tasks == old(db.tasks)[newId := r.value]
    ensures r.Err? ==> db.tasks == old(db.tasks)
  {
    var g := AdminGate(ctx);
    if g.Err? {
      return Err(g.error);
    }
    var input := ParseTaskCreate(lib, raw);
    if input.Err? {
      return Err(input.error);
    }
    if input.value.projectId !in db.projects {
      return Fail(NOT_FOUND);
    }
    var t := NewTask(newId, input.value, now);
    db.tasks := db.tasks[newId := t];
    return Ok(t);
  }

  /** Prisma's update: a field given in the patch replaces the stored one, an absent field is kept; `updatedAt` is set. */
  function ApplyPatch(t: Task, patch: TaskPatch, now: int): Task {
    t.(title := if patch.title.Some? then patch.title.value else t.title,
       description := if patch.description.Some? then patch.description else t.description,
       projectId := if patch.projectId.Some? then patch.projectId.value else t.projectId,
       status := if patch.status.Some? then patch.status.value else t.status,
       priority := if patch.priority.Some? then patch.priority.value else t.priority,
       dueDate := if patch.dueDate.Some? then patch.dueDate else t.dueDate,
       updatedAt := now)
  }

  /** A patch keeps the task's identity and creation time, applying it twice is applying it once, and an empty patch only touches `updatedAt`. */
  lemma PatchProperties(t: Task, patch: TaskPatch, now: int)
    ensures ApplyPatch(t, patch, now).id == t.id && ApplyPatch(t, patch, now).createdAt == t.createdAt
    ensures ApplyPatch(ApplyPatch(t, patch, now), patch, now) == ApplyPatch(t, patch, now)
    ensures ApplyPatch(t, TaskPatch(patch.id, None, None, None, None, None, None), now) == t.(updatedAt := now)
  {
  }

  /**
   * `tasks.update`. An admin applies the whole patch. Anyone else must be
   * the client of the task's project and give a status, and only the status
   * is written: the patch's other fields are dropped, not refused.
   */
  method Update(db: Db, lib: Lib, ctx: Ctx, id: Option<string>, raw: TaskRaw, now: int) returns (r: Result<Task>)
    requires db.Valid()
    modifies db
    ensures db.Valid()
    ensures db.users == old(db.users) && db.projects == old(db.projects) && db.leads == old(db.leads)
    ensures !HasUserId(ctx) ==> r == Fail(UNAUTHORIZED)
    ensures HasUserId(ctx) && ParseTaskUpdate(lib, id, raw).Err? ==> r == Err(ParseTaskUpdate(lib, id, raw).error)
    ensures HasUserId(ctx) && ParseTaskUpdate(lib, id, raw).Ok? && id.value !in old(db.tasks) ==> r == Fail(NOT_FOUND)
    ensures r.Ok? ==> HasUserId(ctx) && ParseTaskUpdate(lib, id, raw).Ok? && id.value in old(db.tasks)
    ensures r.Ok? ==> db.tasks == old(db.tasks)[id.value := r.value]
    ensures r.Err? ==> db.tasks == old(db.tasks)
    // the admin path
    ensures r.Ok? && IsAdmin(CallerOf(ctx)) ==> r.value == ApplyPatch(old(db.tasks)[id.value], ParseTaskUpdate(lib, id, raw).value, now)
    ensures HasUserId(ctx) && IsAdmin(CallerOf(ctx)) && ParseTaskUpdate(lib, id, raw).Ok? && id.value in old(db.tasks)
            ==> (r.Ok? <==> raw.projectId.None? || raw.projectId.value in old(db.projects))
    ensures r == DbError() <==> (HasUserId(ctx) && IsAdmin(CallerOf(ctx)) && ParseTaskUpdate(lib, id, raw).Ok? && id.value in old(db.tasks)
                                 && raw.projectId.Some? && raw.projectId.value !in old(db.projects))
    // the client path
    ensures HasUserId(ctx) && !IsAdmin(CallerOf(ctx)) && ParseTaskUpdate(lib, id, raw).Ok? && id.value in old(db.tasks)
            ==> var owner := old(db.projects)[old(db.tasks)[id.value].projectId].clientId;
                && (owner != CallerOf(ctx).id ==> r == Fail(FORBIDDEN))
                && (owner == CallerOf(ctx).id && raw.status.None? ==> r == Fail(BAD_REQUEST))
                && (owner == CallerOf(ctx).id && raw.status.Some? ==>
                      r == Ok(old(db.tasks)[id.value].(status := ParseTaskUpdate(lib, id, raw).value.status.value, updatedAt := now)))
  {
    var g := AuthGate(ctx);
    if g.Err? {
      return Err(g.error);
    }
    var caller := g.value;
    var input := ParseTaskUpdate(lib, id, raw);
    if input.Err? {
      return Err(input.error);
    }
    var patch := input.value;
    if patch.id !in db.tasks {
      return Fail(NOT_FOUND);
    }
    var task := db.tasks[patch.id];
    if !IsAdmin(caller) {
      if db.projects[task.projectId].clientId != caller.id {
        return Fail(FORBIDDEN);
      }
      if patch.status.None? {
        return Fail(BAD_REQUEST);
      }
      var t := task.(status := patch.status.value, updatedAt := now);
      PutTaskKeeps(db.users, db.projects, db.tasks, t);
      db.tasks := db.tasks[patch.id := t];
      return Ok(t);
    }
    if patch.projectId.Some? && patch.projectId.value !in db.projects {
      return DbError();
    }
    var t := ApplyPatch(task, patch, now);
    PutTaskKeeps(db.users, db.projects, db.tasks, t);
    db.tasks := db.tasks[patch.id := t];
    return Ok(t);
  }

  /** `tasks.delete`: NOT_FOUND for an unknown id. */
  method Delete(db: Db, lib: Lib, ctx: Ctx, id: Option<string>) returns (r: Result<bool>)
    requires db.Valid()
    modifies db
    ensures db.Valid()
    ensures db.users == old(db.users) && db.projects == old(db.projects) && db.leads == old(db.leads)
    ensures !HasAdminRole(ctx) ==> r == Fail(FORBIDDEN)
    ensures HasAdminRole(ctx) && ParseCuid(lib, "id", id).Err? ==> r == Invalid(["id"])
    ensures HasAdminRole(ctx) && ParseCuid(lib, "id", id).Ok? && id.value !in old(db.tasks) ==> r == Fail(NOT_FOUND)
    ensures r.Ok? <==> HasAdminRole(ctx) && id.Some? && lib.isCuid(id.value) && id.value in old(db.tasks)
    ensures r.Ok? ==> r.value && db.tasks == old(db.tasks) - {id.value}
    ensures r.Err? ==> db.tasks == old(db.tasks)
  {
    var g := AdminGate(ctx);
    if g.Err? {
      return Err(g.error);
    }
    var tid := ParseCuid(lib, "id", id);
    if tid.Err? {
      return Err(tid.error);
    }
    if tid.value !in db.tasks {
      return Fail(NOT_FOUND);
    }
    db.tasks := db.tasks - {tid.value};
    return Ok(true);
  }
}
