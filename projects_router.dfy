/**
 * The projects router (src/server/api/routers/projects.ts). Reads are
 * scoped by role: an admin sees every project, anyone else only the
 * projects whose client they are. Writes are admin-only.
 */
module ProjectsRouter {
  import opened Common
  import opened Trpc
  import opened ProjectSchema
  import opened Store
  import Listing

  /** The read rule shared by the project and task procedures: an admin, or the project's client. */
  predicate CanAccess(c: Caller, p: Project) {
    IsAdmin(c) || p.clientId == c.id
  }

  /** The client columns the project queries select. */
  datatype ClientRef = ClientRef(id: Id, name: Option<string>, email: string)

  /** The task columns `getAll` selects. */
  datatype TaskSummary = TaskSummary(id: Id, status: TaskStatus, priority: Priority)

  /** A `getAll` row: the project, its client when an admin asks, and its tasks' summaries in no particular order. */
  datatype ProjectRow = ProjectRow(project: Project, client: Option<ClientRef>, tasks: set<TaskSummary>)

  /** A `getById` result: the project, its client and its tasks. */
  datatype ProjectDetail = ProjectDetail(project: Project, client: ClientRef, tasks: set<Task>)

  /** The answer of `create` and `update`: the row with its client's id, name and email. */
  datatype ProjectWithClient = ProjectWithClient(project: Project, client: ClientRef)

  function ClientOf(u: User): ClientRef {
    ClientRef(u.id, u.name, u.email)
  }

  function Summary(t: Task): TaskSummary {
    TaskSummary(t.id, t.status, t.priority)
  }

  /** The tasks of project `pid`. */
  function ProjectTasks(tasks: map<Id, Task>, pid: Id): (r: set<Task>)
    ensures forall t :: t in r <==> t in tasks.Values && t.projectId == pid
  {
    set k | k in tasks && tasks[k].projectId == pid :: tasks[k]
  }

  /** The summaries of the tasks of project `pid`: one per task, since the id is among the columns. */
  function TaskSummaries(tasks: map<Id, Task>, pid: Id): (r: set<TaskSummary>)
    requires KeyedTasks(tasks)
    ensures forall s | s in r :: s.id in tasks && tasks[s.id].projectId == pid && s == Summary(tasks[s.id])
    ensures forall k | k in tasks && tasks[k].projectId == pid :: Summary(tasks[k]) in r
  {
    set k | k in tasks && tasks[k].projectId == pid :: Summary(tasks[k])
  }

  /** The `include` of `getAll`: the client only for an admin, the task summaries for everyone. */
  function RowOf(users: map<Id, User>, tasks: map<Id, Task>, p: Project, admin: bool): ProjectRow
    requires KeyedTasks(tasks)
  {
    ProjectRow(p, if admin && p.clientId in users then Some(ClientOf(users[p.clientId])) else None, TaskSummaries(tasks, p.id))
  }

  function ProjectsOf(rows: seq<ProjectRow>): (ps: seq<Project>)
    ensures |ps| == |rows| && forall i | 0 <= i < |rows| :: ps[i] == rows[i].project
  {
    seq(|rows|, i requires 0 <= i < |rows| => rows[i].project)
  }

  /**
   * `projects.getAll`: the caller's visible projects, most recently updated
   * first, each with its tasks' summaries and, for an admin, its client.
   */
  method GetAll(db: Db, ctx: Ctx) returns (r: Result<seq<ProjectRow>>)
    requires db.Valid()
    ensures r.Err? <==> !HasUserId(ctx)
    ensures r.Err? ==> r == Fail(UNAUTHORIZED)
    ensures r.Ok? ==> Listing.NoDup(ProjectsOf(r.value))
    ensures r.Ok? ==> forall p :: p in ProjectsOf(r.value) <==> p in db.projects.Values && CanAccess(CallerOf(ctx), p)
    ensures r.Ok? ==> forall i, j | 0 <= i < j < |r.value| :: r.value[i].project.updatedAt >= r.value[j].project.updatedAt
    ensures r.Ok? ==> forall i | 0 <= i < |r.value| ::
                        && r.value[i].tasks == TaskSummaries(db.tasks, r.value[i].project.id)
                        && (r.value[i].client.Some? <==> IsAdmin(CallerOf(ctx)))
                        && (r.value[i].client.Some? ==>
                              r.value[i].project.clientId in db.users
                              && r.value[i].client.value == ClientOf(db.users[r.value[i].project.clientId]))
  {
    var g := AuthGate(ctx);
    if g.Err? {
      return Err(g.error);
    }
    var caller := g.value;
    var ps := Listing.SelectRows(db.projects, (p: Project) => p.id,
                                 (p: Project) => CanAccess(caller, p), (p: Project) => p.updatedAt);
    forall i | 0 <= i < |ps| ensures ps[i].clientId in db.users {
      assert ps[i] in db.projects.Values;
      var k :| k in db.projects && db.projects[k] == ps[i];
    }
    var users, tasks, admin := db.users, db.tasks, IsAdmin(caller);
    var rows := seq(|ps|, i requires 0 <= i < |ps| => RowOf(users, tasks, ps[i], admin));
    assert ProjectsOf(rows) == ps;
    return Ok(rows);
  }

  /**
   * `projects.getById`: existence is checked before ownership; the project
   * comes with its client and its tasks.
   */
  function GetById(users: map<Id, User>, projects: map<Id, Project>, tasks: map<Id, Task>, lib: Lib, ctx: Ctx, id: Option<string>)
    : (r: Result<ProjectDetail>)
    requires KeyedProjects(projects) && Linked(users, projects, tasks)
    ensures !HasUserId(ctx) ==> r == Fail(UNAUTHORIZED)
    ensures HasUserId(ctx) && ParseCuid(lib, "id", id).Err? ==> r == Invalid(["id"])
    ensures HasUserId(ctx) && ParseCuid(lib, "id", id).Ok? && id.value !in projects ==> r == Fail(NOT_FOUND)
    ensures r.Ok? <==> HasUserId(ctx) && id.Some? && lib.isCuid(id.value) && id.value in projects
                       && CanAccess(CallerOf(ctx), projects[id.value])
    ensures r.Ok? ==> r.value.project == projects[id.value] && r.value.project.id == id.value
    ensures r.Ok? ==> r.value.project.clientId in users && r.value.client == ClientOf(users[r.value.project.clientId])
    ensures r.Ok? ==> forall t :: t in r.value.tasks <==> t in tasks.Values && t.projectId == id.value
    ensures r.Err? && HasUserId(ctx) && ParseCuid(lib, "id", id).Ok? && id.value in projects ==> r == Fail(FORBIDDEN)
  {
    match AuthGate(ctx)
    case Err(e) => Err(e)
    case Ok(caller) =>
      match ParseCuid(lib, "id", id)
      case Err(e) => Err(e)
      case Ok(pid) =>
        if pid !in projects then Fail(NOT_FOUND)
        else if !CanAccess(caller, projects[pid]) then Fail(FORBIDDEN)
        else Ok(ProjectDetail(projects[pid], ClientOf(users[projects[pid].clientId]), ProjectTasks(tasks, pid)))
  }

  /** The row `project.create` stores for a parsed input. */
  function NewProject(id: Id, input: ProjectInput, now: int): Project {
    Project(id, input.title, input.description, input.status, input.clientId,
            input.startDate, input.endDate, input.budget, now, now)
  }

  /** `projects.create`. A client id naming no user is refused by the database. */
  method Create(db: Db, lib: Lib, ctx: Ctx, raw: ProjectRaw, newId: Id, now: int) returns (r: Result<ProjectWithClient>)
    requires db.Valid() && newId !in db.projects
    modifies db
    ensures db.Valid()
    ensures db.users == old(db.users) && db.tasks == old(db.tasks) && db.leads == old(db.leads)
    ensures !HasAdminRole(ctx) ==> r == Fail(FORBIDDEN)
    ensures HasAdminRole(ctx) && ParseProjectCreate(lib, raw).Err? ==> r == Err(ParseProjectCreate(lib, raw).error)
    ensures HasAdminRole(ctx) && ParseProjectCreate(lib, raw).Ok? && ParseProjectCreate(lib, raw).value.clientId !in db.users ==> r == DbError()
    ensures r.Ok? <==> HasAdminRole(ctx) && ParseProjectCreate(lib, raw).Ok? && ParseProjectCreate(lib, raw).value.clientId in db.users
    ensures r.Ok? ==> r.value.project == NewProject(newId, ParseProjectCreate(lib, raw).value, now)
    ensures r.Ok? ==> db.projects == old(db.projects)[newId := r.value.project]
    ensures r.Ok? ==> r.value.project.clientId in db.users && r.value.client == ClientOf(db.users[r.value.project.clientId])
    ensures r.Err? ==> db.projects == old(db.projects)
  {
    var g := AdminGate(ctx);
    if g.Err? {
      return Err(g.error);
    }
    var input := ParseProjectCreate(lib, raw);
    if input.Err? {
      return Err(input.error);
    }
    if input.value.clientId !in db.users {
      return DbError();
    }
    var p := NewProject(newId, input.value, now);
    db.projects := db.projects[newId := p];
    return Ok(ProjectWithClient(p, ClientOf(db.users[p.clientId])));
  }

  /** Prisma's update: a field given in the patch replaces the stored one, an absent field is kept; `updatedAt` is set. */
  function ApplyPatch(p: Project, patch: ProjectPatch, now: int): Project {
    p.(title := if patch.title.Some? then patch.title.value else p.title,
       description := if patch.description.Some? then patch.description else p.description,
       clientId := if patch.clientId.Some? then patch.clientId.value else p.clientId,
       status := if patch.status.Some? then patch.status.value else p.status,
       startDate := if patch.startDate.Some? then patch.startDate else p.startDate,
       endDate := if patch.endDate.Some? then patch.endDate else p.endDate,
       budget := if patch.budget.Some? then patch.budget else p.budget,
       updatedAt := now)
  }

  /**
   * Applying a patch keeps the row's id and creation time, applying it twice
   * is applying it once, and a patch with no field only touches `updatedAt`.
   */
  lemma PatchProperties(p: Project, patch: ProjectPatch, now: int)
    ensures ApplyPatch(p, patch, now).id == p.id && ApplyPatch(p, patch, now).createdAt == p.createdAt
    ensures ApplyPatch(ApplyPatch(p, patch, now), patch, now) == ApplyPatch(p, patch, now)
    ensures ApplyPatch(p, ProjectPatch(patch.id, None, None, None, None, None, None, None), now) == p.(updatedAt := now)
  {
  }

  /** `projects.update`: NOT_FOUND for an unknown id; a client id naming no user is refused by the database. */
  method Update(db: Db, lib: Lib, ctx: Ctx, id: Option<string>, raw: ProjectRaw, now: int) returns (r: Result<ProjectWithClient>)
    requires db.Valid()
    modifies db
    ensures db.Valid()
    ensures db.users == old(db.users) && db.tasks == old(db.tasks) && db.leads == old(db.leads)
    ensures !HasAdminRole(ctx) ==> r == Fail(FORBIDDEN)
    ensures HasAdminRole(ctx) && ParseProjectUpdate(lib, id, raw).Err? ==> r == Err(ParseProjectUpdate(lib, id, raw).error)
    ensures HasAdminRole(ctx) && ParseProjectUpdate(lib, id, raw).Ok? && id.value !in old(db.projects) ==> r == Fail(NOT_FOUND)
    ensures r.Ok? <==> (HasAdminRole(ctx) && ParseProjectUpdate(lib, id, raw).Ok? && id.value in old(db.projects)
                        && (raw.clientId.None? || raw.clientId.value in db.users))
    ensures r.Ok? ==> r.value.project == ApplyPatch(old(db.projects)[id.value], ParseProjectUpdate(lib, id, raw).value, now)
    ensures r.Ok? ==> db.projects == old(db.projects)[id.value := r.value.project]
    ensures r.Ok? ==> r.value.project.clientId in db.users && r.value.client == ClientOf(db.users[r.value.project.clientId])
    ensures r.Err? ==> db.projects == old(db.projects)
    ensures r == DbError() <==> (HasAdminRole(ctx) && ParseProjectUpdate(lib, id, raw).Ok? && id.value in old(db.projects)
                                 && raw.clientId.Some? && raw.clientId.value !in db.users)
  {
    var g := AdminGate(ctx);
    if g.Err? {
      return Err(g.error);
    }
    var input := ParseProjectUpdate(lib, id, raw);
    if input.Err? {
      return Err(input.error);
    }
    var patch := input.value;
    if patch.id !in db.projects {
      return Fail(NOT_FOUND);
    }
    if patch.clientId.Some? && patch.clientId.value !in db.users {
      return DbError();
    }
    var p := ApplyPatch(db.projects[patch.id], patch, now);
    db.projects := db.projects[patch.id := p];
    return Ok(ProjectWithClient(p, ClientOf(db.users[p.clientId])));
  }

  /**
   * `projects.delete`: NOT_FOUND for an unknown id. The project's tasks are
   * deleted with it, or their existence makes the database refuse.
   */
  method Delete(db: Db, lib: Lib, ctx: Ctx, id: Option<string>, onDelete: OnDelete) returns (r: Result<bool>)
    requires db.Valid()
    modifies db
    ensures db.Valid()
    ensures db.users == old(db.users) && db.leads == old(db.leads)
    ensures !HasAdminRole(ctx) ==> r == Fail(FORBIDDEN)
    ensures HasAdminRole(ctx) && ParseCuid(lib, "id", id).Err? ==> r == Invalid(["id"])
    ensures HasAdminRole(ctx) && ParseCuid(lib, "id", id).Ok? && id.value !in old(db.projects) ==> r == Fail(NOT_FOUND)
    ensures r.Ok? <==> HasAdminRole(ctx) && id.Some? && lib.isCuid(id.value) && id.value in old(db.projects)
                       && (onDelete == Restrict ==> TasksOutside(old(db.tasks), {id.value}) == old(db.tasks))
    ensures r.Ok? ==> r.value && db.projects == old(db.projects) - {id.value}
                      && db.tasks == TasksOutside(old(db.tasks), {id.value})
    ensures r == DbError() <==> HasAdminRole(ctx) && id.Some? && lib.isCuid(id.value) && id.value in old(db.projects)
                                && onDelete == Restrict && TasksOutside(old(db.tasks), {id.value}) != old(db.tasks)
    ensures r.Err? ==> db.projects == old(db.projects) && db.tasks == old(db.tasks)
  {
    var g := AdminGate(ctx);
    if g.Err? {
      return Err(g.error);
    }
    var pid := ParseCuid(lib, "id", id);
    if pid.Err? {
      return Err(pid.error);
    }
    if pid.value !in db.projects {
      return Fail(NOT_FOUND);
    }
    var rest := TasksOutside(db.tasks, {pid.value});
    if onDelete == Restrict && rest != db.tasks {
      return DbError();
    }
    db.tasks := rest;
    db.projects := db.projects - {pid.value};
    return Ok(true);
  }

  // ---- getStats ---------------------------------------------------------

  /** The tasks of a project, optionally only those with one status. */
  function TasksWith(tasks: map<Id, Task>, pid: Id, status: Option<TaskStatus>): (ids: set<Id>)
    ensures forall k :: k in ids <==> k in tasks && tasks[k].projectId == pid && (status.Some? ==> tasks[k].status == status.value)
  {
    set k | k in tasks && tasks[k].projectId == pid && (status.Some? ==> tasks[k].status == status.value)
  }

  datatype Stats = Stats(total: nat, todo: nat, inProgress: nat, done: nat)

  /** The four counts of `getStats`. */
  function Counts(tasks: map<Id, Task>, pid: Id): Stats {
    Stats(|TasksWith(tasks, pid, None)|, |TasksWith(tasks, pid, Some(TODO))|,
          |TasksWith(tasks, pid, Some(IN_PROGRESS))|, |TasksWith(tasks, pid, Some(DONE))|)
  }

  /** Every task has one of the three statuses, so the three counts add up to the total. */
  lemma {:induction false} CountsPartition(tasks: map<Id, Task>, pid: Id)
    ensures Counts(tasks, pid).total == Counts(tasks, pid).todo + Counts(tasks, pid).inProgress + Counts(tasks, pid).done
  {
    var all := TasksWith(tasks, pid, None);
    var a := TasksWith(tasks, pid, Some(TODO));
    var b := TasksWith(tasks, pid, Some(IN_PROGRESS));
    var c := TasksWith(tasks, pid, Some(DONE));
    forall k | k in all ensures k in a + b + c {
      match tasks[k].status
      case TODO => assert k in a;
      case IN_PROGRESS => assert k in b;
      case DONE => assert k in c;
    }
    assert all == a + b + c;
    Listing.DisjointThree(a, b, c);
  }

  /** `projects.getStats`: the same access rule as `getById`, then the counts. */
  function GetStats(projects: map<Id, Project>, tasks: map<Id, Task>, lib: Lib, ctx: Ctx, projectId: Option<string>): (r: Result<Stats>)
    ensures !HasUserId(ctx) ==> r == Fail(UNAUTHORIZED)
    ensures HasUserId(ctx) && ParseCuid(lib, "projectId", projectId).Err? ==> r == Invalid(["projectId"])
    ensures HasUserId(ctx) && ParseCuid(lib, "projectId", projectId).Ok? && projectId.value !in projects ==> r == Fail(NOT_FOUND)
    ensures (HasUserId(ctx) && ParseCuid(lib, "projectId", projectId).Ok? && projectId.value in projects
             && !CanAccess(CallerOf(ctx), projects[projectId.value])) ==> r == Fail(FORBIDDEN)
    ensures r.Ok? <==> HasUserId(ctx) && projectId.Some? && lib.isCuid(projectId.value) && projectId.value in projects
                       && CanAccess(CallerOf(ctx), projects[projectId.value])
    ensures r.Ok? ==> r.value.total == r.value.todo + r.value.inProgress + r.value.done
    ensures r.Ok? ==> r.value.total == |set k | k in tasks && tasks[k].projectId == projectId.value|
    ensures r.Ok? ==> r.value.todo == |TasksWith(tasks, projectId.value, Some(TODO))|
    ensures r.Ok? ==> r.value.inProgress == |TasksWith(tasks, projectId.value, Some(IN_PROGRESS))|
    ensures r.Ok? ==> r.value.done == |TasksWith(tasks, projectId.value, Some(DONE))|
  {
    match AuthGate(ctx)
    case Err(e) => Err(e)
    case Ok(caller) =>
      match ParseCuid(lib, "projectId", projectId)
      case Err(e) => Err(e)
      case Ok(pid) =>
        if pid !in projects then Fail(NOT_FOUND)
        else if !CanAccess(caller, projects[pid]) then Fail(FORBIDDEN)
        else
          CountsPartition(tasks, pid);
          assert TasksWith(tasks, pid, None) == set k | k in tasks && tasks[k].projectId == pid;
          Ok(Counts(tasks, pid))
  }
}
