/**
 * The database the routers read and write: one table per model, each a map
 * from row id to row. Dates are integer timestamps in milliseconds. Row
 * ids and the current time are supplied by the caller of each operation.
 */
module Store {
  import opened Common
  import opened ProjectSchema
  import opened LeadSchema

  datatype User = User(
    id: Id, email: string, name: Option<string>, image: Option<string>,
    passwordHash: Option<string>, role: Role, createdAt: int)

  datatype Project = Project(
    id: Id, title: string, description: Option<string>, status: ProjectStatus,
    clientId: Id, startDate: Option<int>, endDate: Option<int>, budget: Option<int>,
    createdAt: int, updatedAt: int)

  datatype Task = Task(
    id: Id, title: string, description: Option<string>, status: TaskStatus,
    priority: Priority, projectId: Id, dueDate: Option<int>, createdAt: int, updatedAt: int)

  datatype Lead = Lead(
    id: Id, name: string, email: string, phone: Option<string>, company: Option<string>,
    message: string, service: Option<string>, source: LeadSource, createdAt: int)

  /** Each row is stored under its own id. */
  predicate KeyedUsers(m: map<Id, User>) { forall k | k in m :: m[k].id == k }
  predicate KeyedProjects(m: map<Id, Project>) { forall k | k in m :: m[k].id == k }
  predicate KeyedTasks(m: map<Id, Task>) { forall k | k in m :: m[k].id == k }
  predicate KeyedLeads(m: map<Id, Lead>) { forall k | k in m :: m[k].id == k }

  /** The unique constraint on `User.email`. */
  predicate UniqueEmails(m: map<Id, User>) {
    forall a, b | a in m && b in m && m[a].email == m[b].email :: a == b
  }

  /** `db.user.findUnique({ where: { email } })`. */
  function UserByEmail(m: map<Id, User>, email: string): (r: Option<User>)
    requires UniqueEmails(m)
    ensures r.Some? <==> exists k | k in m :: m[k].email == email
    ensures r.Some? ==> r.value in m.Values && r.value.email == email
    ensures forall k | k in m && m[k].email == email :: r == Some(m[k])
  {
    if exists k | k in m :: m[k].email == email then
      var k :| k in m && m[k].email == email;
      Some(m[k])
    else None
  }

  /** Every task belongs to a stored project and every project to a stored user. */
  predicate Linked(users: map<Id, User>, projects: map<Id, Project>, tasks: map<Id, Task>) {
    && (forall k | k in tasks :: tasks[k].projectId in projects)
    && (forall k | k in projects :: projects[k].clientId in users)
  }

  /**
   * What the database does to dependent rows when a row is deleted. The
   * choice is made by a schema outside this model, so both are modelled:
   * refuse while dependents exist, or delete them too.
   */
  datatype OnDelete = Restrict | Cascade

  /** The tasks that do not belong to any of the given projects. */
  function TasksOutside(tasks: map<Id, Task>, pids: set<Id>): (r: map<Id, Task>)
    ensures forall k :: k in r <==> k in tasks && tasks[k].projectId !in pids
    ensures forall k | k in r :: r[k] == tasks[k]
  {
    map k | k in tasks && tasks[k].projectId !in pids :: tasks[k]
  }

  /** The ids of the projects a user is client of. */
  function ProjectsOf(projects: map<Id, Project>, uid: Id): (r: set<Id>)
    ensures forall k :: k in r <==> k in projects && projects[k].clientId == uid
  {
    set k | k in projects && projects[k].clientId == uid
  }

  /** Storing a task under its own id, in a stored project, keeps the tasks keyed and linked. */
  lemma PutTaskKeeps(users: map<Id, User>, projects: map<Id, Project>, tasks: map<Id, Task>, t: Task)
    requires KeyedTasks(tasks) && Linked(users, projects, tasks) && t.projectId in projects
    ensures KeyedTasks(tasks[t.id := t]) && Linked(users, projects, tasks[t.id := t])
  {
  }

  class Db {
    var users: map<Id, User>
    var projects: map<Id, Project>
    var tasks: map<Id, Task>
    var leads: map<Id, Lead>

    ghost predicate Valid()
      reads this
    {
      KeyedUsers(users) && KeyedProjects(projects) && KeyedTasks(tasks) && KeyedLeads(leads)
      && UniqueEmails(users) && Linked(users, projects, tasks) && "" !in users && "" !in leads
    }

    constructor ()
      ensures Valid()
      ensures users == map[] && projects == map[] && tasks == map[] && leads == map[]
    {
      users, projects, tasks, leads := map[], map[], map[], map[];
    }
  }
}
