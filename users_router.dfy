/**
 * The users router (src/server/api/routers/users.ts), admin-only. The
 * acting admin may neither change their own role nor delete their own
 * account. Reads return the public columns of a user; the password hash
 * is never among them.
 */
module UsersRouter {
  import opened Common
  import opened Trpc
  import opened Store
  import Text
  import Listing
  import LeadSchema
  import AuthLib
  import ProjectsRouter
  import opened ProjectSchema

  function RoleName(r: Role): string {
    match r
    case ADMIN => "ADMIN"
    case CLIENT => "CLIENT"
    case GUEST => "GUEST"
  }

  /** `z.enum(["ADMIN", "CLIENT", "GUEST"])`. */
  function ParseRole(s: string): (r: Option<Role>)
    ensures r.Some? ==> RoleName(r.value) == s
    ensures forall v :: RoleName(v) == s ==> r == Some(v)
  {
    if s == "ADMIN" then Some(ADMIN)
    else if s == "CLIENT" then Some(CLIENT)
    else if s == "GUEST" then Some(GUEST)
    else None
  }

  /** The public columns of a user. */
  datatype UserView = UserView(id: Id, email: string, name: Option<string>, image: Option<string>, role: Role, createdAt: int)

  function View(u: User): UserView {
    UserView(u.id, u.email, u.name, u.image, u.role, u.createdAt)
  }

  /** The columns `users.create` and `auth.register` select: no image, and never the hash. */
  datatype Account = Account(id: Id, email: string, name: Option<string>, role: Role, createdAt: int)

  function AccountOf(u: User): Account {
    Account(u.id, u.email, u.name, u.role, u.createdAt)
  }

  /** The columns `users.updateRole` selects. */
  datatype RoleChange = RoleChange(id: Id, email: string, name: Option<string>, role: Role)

  function RoleChangeOf(u: User): RoleChange {
    RoleChange(u.id, u.email, u.name, u.role)
  }

  /** A user with `_count.projects`. */
  datatype UserRow = UserRow(user: UserView, projectCount: nat)

  function Row(projects: map<Id, Project>, u: User): UserRow {
    UserRow(View(u), |ProjectsOf(projects, u.id)|)
  }

  // ---- getAll -----------------------------------------------------------

  /** The `where` of `getAll`: the role when given, and the search text inside the name or the email when given. */
  predicate Matches(u: User, role: Option<Role>, search: Option<string>) {
    && (role.Some? ==> u.role == role.value)
    && (search.Some? && search.value != "" ==>
          (u.name.Some? && Text.Contains(u.name.value, search.value)) || Text.Contains(u.email, search.value))
  }

  /** `users.getAll`: matching users, newest first, each with their project count. */
  method GetAll(db: Db, ctx: Ctx, role: Option<string>, search: Option<string>) returns (r: Result<seq<UserRow>>)
    requires db.Valid()
    ensures !HasAdminRole(ctx) ==> r == Fail(FORBIDDEN)
    ensures HasAdminRole(ctx) && role.Some? && ParseRole(role.value).None? ==> r == Invalid(["role"])
    ensures r.Ok? <==> HasAdminRole(ctx) && (role.Some? ==> ParseRole(role.value).Some?)
    ensures r.Ok? ==> var rl := if role.Some? then ParseRole(role.value) else None;
                      && (forall row | row in r.value :: row.user.id in db.users && Matches(db.users[row.user.id], rl, search)
                                                          && row == Row(db.projects, db.users[row.user.id]))
                      && (forall u | u in db.users.Values && Matches(u, rl, search) :: Row(db.projects, u) in r.value)
                      && (forall i, j | 0 <= i < j < |r.value| :: r.value[i].user.createdAt >= r.value[j].user.createdAt)
                      && (forall i, j | 0 <= i < j < |r.value| :: r.value[i].user.id != r.value[j].user.id)
  {
    if !HasAdminRole(ctx) {
      return Fail(FORBIDDEN);
    }
    if role.Some? && ParseRole(role.value).None? {
      return Invalid(["role"]);
    }
    var rl := if role.Some? then ParseRole(role.value) else None;
    var users := Listing.SelectRows(db.users, (u: User) => u.id, (u: User) => Matches(u, rl, search), (u: User) => u.createdAt);
    var projects := db.projects;
    var rows := seq(|users|, i requires 0 <= i < |users| => Row(projects, users[i]));
    forall i | 0 <= i < |users| ensures users[i].id in db.users && db.users[users[i].id] == users[i] {
      assert users[i] in db.users.Values;
      var k :| k in db.users && db.users[k] == users[i];
    }
    forall row | row in rows
      ensures row.user.id in db.users && Matches(db.users[row.user.id], rl, search) && row == Row(db.projects, db.users[row.user.id])
    {
      var i :| 0 <= i < |rows| && rows[i] == row;
      assert users[i] in users;
    }
    forall u | u in db.users.Values && Matches(u, rl, search) ensures Row(db.projects, u) in rows {
      var i :| 0 <= i < |users| && users[i] == u;
      assert rows[i] == Row(db.projects, u);
    }
    return Ok(rows);
  }

  // ---- getById ----------------------------------------------------------

  /** A project as `getById` lists it: with the status of each of its tasks, in no particular order. */
  datatype ProjectStatuses = ProjectStatuses(project: Project, statuses: multiset<TaskStatus>)

  /** A user with their projects, most recently updated first. */
  datatype UserDetail = UserDetail(user: UserView, projects: seq<ProjectStatuses>)

  /** The statuses of project `pid`'s tasks, one per task. */
  function StatusesOf(tasks: map<Id, Task>, pid: Id): (r: multiset<TaskStatus>)
    ensures forall s :: r[s] == |ProjectsRouter.TasksWith(tasks, pid, Some(s))|
    ensures |r| == |ProjectsRouter.TasksWith(tasks, pid, None)|
  {
    ProjectsRouter.CountsPartition(tasks, pid);
    var c := ProjectsRouter.Counts(tasks, pid);
    multiset{}[TODO := c.todo][IN_PROGRESS := c.inProgress][DONE := c.done]
  }

  /**
   * The projects of `users.getById`'s answer, in answer order. The rows
   * here carry task statuses, not the task summaries of the projects
   * router's rows, so this projection is over a different row type from
   * `ProjectsRouter.ProjectsOf`.
   */
  function ProjectsIn(rows: seq<ProjectStatuses>): (ps: seq<Project>)
    ensures |ps| == |rows| && forall i | 0 <= i < |rows| :: ps[i] == rows[i].project
  {
    seq(|rows|, i requires 0 <= i < |rows| => rows[i].project)
  }

  /** `users.getById`: the user's public columns and their projects, each with its tasks' statuses. */
  method GetById(db: Db, lib: Lib, ctx: Ctx, id: Option<string>) returns (r: Result<UserDetail>)
    requires db.Valid()
    ensures !HasAdminRole(ctx) ==> r == Fail(FORBIDDEN)
    ensures HasAdminRole(ctx) && !(id.Some? && lib.isCuid(id.value)) ==> r == Invalid(["id"])
    ensures HasAdminRole(ctx) && id.Some? && lib.isCuid(id.value) && id.value !in db.users ==> r == Fail(NOT_FOUND)
    ensures r.Ok? <==> HasAdminRole(ctx) && id.Some? && lib.isCuid(id.value) && id.value in db.users
    ensures r.Ok? ==> r.value.user == View(db.users[id.value])
    ensures r.Ok? ==> Listing.NoDup(ProjectsIn(r.value.projects))
    ensures r.Ok? ==> forall p :: p in ProjectsIn(r.value.projects) <==> p in db.projects.Values && p.clientId == id.value
    ensures r.Ok? ==> forall i, j | 0 <= i < j < |r.value.projects| ::
                        r.value.projects[i].project.updatedAt >= r.value.projects[j].project.updatedAt
    ensures r.Ok? ==> forall i | 0 <= i < |r.value.projects| ::
                        r.value.projects[i].statuses == StatusesOf(db.tasks, r.value.projects[i].project.id)
  {
    if !HasAdminRole(ctx) {
      return Fail(FORBIDDEN);
    }
    if !(id.Some? && lib.isCuid(id.value)) {
      return Invalid(["id"]);
    }
    var uid := id.value;
    if uid !in db.users {
      return Fail(NOT_FOUND);
    }
    var ps := Listing.SelectRows(db.projects, (p: Project) => p.id, (p: Project) => p.clientId == uid, (p: Project) => p.updatedAt);
    var tasks := db.tasks;
    var rows := seq(|ps|, i requires 0 <= i < |ps| => ProjectStatuses(ps[i], StatusesOf(tasks, ps[i].id)));
    assert ProjectsIn(rows) == ps;
    return Ok(UserDetail(View(db.users[uid]), rows));
  }

  // ---- create -----------------------------------------------------------

  datatype UserRaw = UserRaw(name: Option<string>, email: Option<string>, password: Option<string>, role: Option<string>)
  datatype NewAccount = NewAccount(name: string, email: string, password: string, role: Role)

  function CreateIssues(lib: Lib, raw: UserRaw): seq<string> {
    (if raw.name.None? || !(2 <= |raw.name.value| <= 100) then ["name"] else [])
    + (if raw.email.None? || !lib.isEmail(raw.email.value) then ["email"] else [])
    + (if raw.password.None? || |raw.password.value| < 8 then ["password"] else [])
    + (if raw.role.Some? && ParseRole(raw.role.value).None? then ["role"] else [])
  }

  /** The `create` input schema: role defaults to CLIENT, and no password composition rule. */
  function ParseCreate(lib: Lib, raw: UserRaw): (r: Result<NewAccount>)
    ensures r.Ok? <==> CreateIssues(lib, raw) == []
    ensures r.Err? ==> r == Invalid(CreateIssues(lib, raw))
    ensures r.Ok? ==> 2 <= |raw.name.value| <= 100 && r.value.name == Text.Trim(raw.name.value)
    ensures r.Ok? ==> lib.isEmail(raw.email.value) && r.value.email == LeadSchema.NormalizeEmail(raw.email.value)
    ensures r.Ok? ==> |raw.password.value| >= 8 && r.value.password == raw.password.value
    ensures r.Ok? && raw.role.None? ==> r.value.role == CLIENT
    ensures r.Ok? && raw.role.Some? ==> RoleName(r.value.role) == raw.role.value
  {
    var issues := CreateIssues(lib, raw);
    if issues != [] then Invalid(issues)
    else Ok(NewAccount(Text.Trim(raw.name.value), LeadSchema.NormalizeEmail(raw.email.value), raw.password.value,
                       if raw.role.Some? then ParseRole(raw.role.value).value else CLIENT))
  }

  /** `users.create`: CONFLICT when the normalised email is taken; the password is stored hashed. */
  method Create(db: Db, lib: Lib, ctx: Ctx, raw: UserRaw, newId: Id, now: int) returns (r: Result<Account>)
    requires db.Valid() && newId !in db.users && newId != ""
    modifies db
    ensures db.Valid()
    ensures db.projects == old(db.projects) && db.tasks == old(db.tasks) && db.leads == old(db.leads)
    ensures !HasAdminRole(ctx) ==> r == Fail(FORBIDDEN)
    ensures HasAdminRole(ctx) && ParseCreate(lib, raw).Err? ==> r == Err(ParseCreate(lib, raw).error)
    ensures HasAdminRole(ctx) && ParseCreate(lib, raw).Ok? && UserByEmail(old(db.users), ParseCreate(lib, raw).value.email).Some?
            ==> r == Fail(CONFLICT)
    ensures r.Ok? <==> HasAdminRole(ctx) && ParseCreate(lib, raw).Ok? && UserByEmail(old(db.users), ParseCreate(lib, raw).value.email).None?
    ensures r.Ok? ==> var a := ParseCreate(lib, raw).value;
                      var u := AuthLib.NewUser(newId, lib, a.name, a.email, a.password, a.role, now);
                      db.users == old(db.users)[newId := u] && r.value == AccountOf(u)
    ensures r.Err? ==> db.users == old(db.users)
  {
    if !HasAdminRole(ctx) {
      return Fail(FORBIDDEN);
    }
    var input := ParseCreate(lib, raw);
    if input.Err? {
      return Err(input.error);
    }
    var a := input.value;
    if UserByEmail(db.users, a.email).Some? {
      return Fail(CONFLICT);
    }
    var u := AuthLib.NewUser(newId, lib, a.name, a.email, a.password, a.role, now);
    db.users := db.users[newId := u];
    return Ok(AccountOf(u));
  }

  // ---- updateRole, delete ---------------------------------------------

  /** `users.updateRole`: refused for the acting admin's own id; an unknown id surfaces as the database's error. */
  method UpdateRole(db: Db, lib: Lib, ctx: Ctx, id: Option<string>, role: Option<string>) returns (r: Result<RoleChange>)
    requires db.Valid()
    modifies db
    ensures db.Valid()
    ensures db.projects == old(db.projects) && db.tasks == old(db.tasks) && db.leads == old(db.leads)
    ensures !HasAdminRole(ctx) ==> r == Fail(FORBIDDEN)
    ensures (HasAdminRole(ctx) && id.Some? && lib.isCuid(id.value) && role.Some? && ParseRole(role.value).Some?
             && id.value == CallerOf(ctx).id) ==> r == Fail(BAD_REQUEST)
    ensures r.Ok? <==> && HasAdminRole(ctx) && id.Some? && lib.isCuid(id.value) && role.Some? && ParseRole(role.value).Some?
                       && id.value != CallerOf(ctx).id && id.value in old(db.users)
    ensures HasAdminRole(ctx) && !(id.Some? && lib.isCuid(id.value) && role.Some? && ParseRole(role.value).Some?)
            ==> r == Invalid((if !(id.Some? && lib.isCuid(id.value)) then ["id"] else [])
                             + (if !(role.Some? && ParseRole(role.value).Some?) then ["role"] else []))
    ensures (HasAdminRole(ctx) && id.Some? && lib.isCuid(id.value) && role.Some? && ParseRole(role.value).Some?
             && id.value != CallerOf(ctx).id && id.value !in old(db.users)) ==> r == DbError()
    ensures r.Ok? ==> var u := old(db.users)[id.value].(role := ParseRole(role.value).value);
                      db.users == old(db.users)[id.value := u] && r.value == RoleChangeOf(u)
    ensures r.Err? ==> db.users == old(db.users)
  {
    if !HasAdminRole(ctx) {
      return Fail(FORBIDDEN);
    }
    var issues := (if !(id.Some? && lib.isCuid(id.value)) then ["id"] else [])
                  + (if !(role.Some? && ParseRole(role.value).Some?) then ["role"] else []);
    if issues != [] {
      return Invalid(issues);
    }
    if id.value == CallerOf(ctx).id {
      return Fail(BAD_REQUEST);
    }
    if id.value !in db.users {
      return DbError();
    }
    var u := db.users[id.value].(role := ParseRole(role.value).value);
    db.users := db.users[id.value := u];
    return Ok(RoleChangeOf(u));
  }

  /**
   * `users.delete`: refused for the acting admin's own id; an unknown id
   * surfaces as the database's error. The user's projects, and their tasks,
   * go with the user, or their existence makes the database refuse.
   */
  method Delete(db: Db, lib: Lib, ctx: Ctx, id: Option<string>, onDelete: OnDelete) returns (r: Result<bool>)
    requires db.Valid()
    modifies db
    ensures db.Valid()
    ensures db.leads == old(db.leads)
    ensures !HasAdminRole(ctx) ==> r == Fail(FORBIDDEN)
    ensures HasAdminRole(ctx) && !(id.Some? && lib.isCuid(id.value)) ==> r == Invalid(["id"])
    ensures HasAdminRole(ctx) && id.Some? && lib.isCuid(id.value) && id.value == CallerOf(ctx).id ==> r == Fail(BAD_REQUEST)
    ensures r.Ok? <==> && HasAdminRole(ctx) && id.Some? && lib.isCuid(id.value) && id.value != CallerOf(ctx).id
                       && id.value in old(db.users)
                       && (onDelete == Restrict ==> ProjectsOf(old(db.projects), id.value) == {})
    ensures r.Ok? ==> var gone := ProjectsOf(old(db.projects), id.value);
                      && r.value
                      && db.users == old(db.users) - {id.value}
                      && db.projects == old(db.projects) - gone
                      && db.tasks == TasksOutside(old(db.tasks), gone)
    ensures (HasAdminRole(ctx) && id.Some? && lib.isCuid(id.value) && id.value != CallerOf(ctx).id
             && id.value !in old(db.users)) ==> r == DbError()
    ensures r == DbError() <==> && HasAdminRole(ctx) && id.Some? && lib.isCuid(id.value) && id.value != CallerOf(ctx).id
                                && (id.value !in old(db.users)
                                    || (onDelete == Restrict && ProjectsOf(old(db.projects), id.value) != {}))
    ensures r.Err? ==> db.users == old(db.users) && db.projects == old(db.projects) && db.tasks == old(db.tasks)
  {
    if !HasAdminRole(ctx) {
      return Fail(FORBIDDEN);
    }
    if !(id.Some? && lib.isCuid(id.value)) {
      return Invalid(["id"]);
    }
    var uid := id.value;
    if uid == CallerOf(ctx).id {
      return Fail(BAD_REQUEST);
    }
    if uid !in db.users {
      return DbError();
    }
    var gone := ProjectsOf(db.projects, uid);
    if onDelete == Restrict && gone != {} {
      return DbError();
    }
    db.tasks := TasksOutside(db.tasks, gone);
    db.projects := db.projects - gone;
    db.users := db.users - {uid};
    return Ok(true);
  }
}
