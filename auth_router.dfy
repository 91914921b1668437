/**
 * The auth router (src/server/api/routers/auth.ts): public registration,
 * always with the CLIENT role, and the signed-in user's own profile.
 */
module AuthRouter {
  import opened Common
  import opened Trpc
  import opened Store
  import Text
  import AuthSchema
  import AuthLib
  import UsersRouter

  datatype Registered = Registered(success: bool, user: UsersRouter.Account)

  /** `auth.register`: CONFLICT when the normalised email is taken; the new account is a CLIENT. */
  method Register(db: Db, lib: Lib, raw: AuthSchema.RegisterRaw, newId: Id, now: int) returns (r: Result<Registered>)
    requires db.Valid() && newId !in db.users && newId != ""
    modifies db
    ensures db.Valid()
    ensures db.projects == old(db.projects) && db.tasks == old(db.tasks) && db.leads == old(db.leads)
    ensures AuthSchema.ParseRegister(lib, raw).Err? ==> r == Err(AuthSchema.ParseRegister(lib, raw).error)
    ensures AuthSchema.ParseRegister(lib, raw).Ok? && UserByEmail(old(db.users), AuthSchema.ParseRegister(lib, raw).value.email).Some?
            ==> r == Fail(CONFLICT)
    ensures r.Ok? <==> AuthSchema.ParseRegister(lib, raw).Ok? && UserByEmail(old(db.users), AuthSchema.ParseRegister(lib, raw).value.email).None?
    ensures r.Ok? ==> var reg := AuthSchema.ParseRegister(lib, raw).value;
                      var u := AuthLib.NewUser(newId, lib, reg.name, reg.email, reg.password, CLIENT, now);
                      && db.users == old(db.users)[newId := u]
                      && r.value == Registered(true, UsersRouter.AccountOf(u))
                      && r.value.user.role == CLIENT
    ensures r.Err? ==> db.users == old(db.users)
  {
    var input := AuthSchema.ParseRegister(lib, raw);
    if input.Err? {
      return Err(input.error);
    }
    var reg := input.value;
    if UserByEmail(db.users, reg.email).Some? {
      return Fail(CONFLICT);
    }
    var u := AuthLib.NewUser(newId, lib, reg.name, reg.email, reg.password, CLIENT, now);
    db.users := db.users[newId := u];
    return Ok(Registered(true, UsersRouter.AccountOf(u)));
  }

  /** `auth.me`: the caller's own row with their project count; NOT_FOUND when the session's user is gone. */
  function Me(users: map<Id, User>, projects: map<Id, Project>, ctx: Ctx): (r: Result<UsersRouter.UserRow>)
    requires KeyedUsers(users)
    ensures !HasUserId(ctx) ==> r == Fail(UNAUTHORIZED)
    ensures HasUserId(ctx) && CallerOf(ctx).id !in users ==> r == Fail(NOT_FOUND)
    ensures r.Ok? <==> HasUserId(ctx) && CallerOf(ctx).id in users
    ensures r.Ok? ==> r.value.user.id == CallerOf(ctx).id
    ensures r.Ok? ==> r.value == UsersRouter.Row(projects, users[CallerOf(ctx).id])
  {
    match AuthGate(ctx)
    case Err(e) => Err(e)
    case Ok(caller) =>
      if caller.id !in users then Fail(NOT_FOUND)
      else Ok(UsersRouter.Row(projects, users[caller.id]))
  }

  /** The columns `auth.updateProfile` selects. */
  datatype Profile = Profile(id: Id, email: string, name: Option<string>, image: Option<string>, role: Role)

  function ProfileOf(u: User): Profile {
    Profile(u.id, u.email, u.name, u.image, u.role)
  }

  function ProfileIssues(lib: Lib, name: Option<string>, image: Option<string>): seq<string> {
    (if name.Some? && !(2 <= |name.value| <= 100) then ["name"] else [])
    + (if image.Some? && !lib.isUrl(image.value) then ["image"] else [])
  }

  /**
   * `auth.updateProfile`: the caller's own row only, whatever the input; a
   * given name (trimmed) or image replaces the stored one, an absent one is
   * kept. A session whose user is gone surfaces as the database's error.
   */
  method UpdateProfile(db: Db, lib: Lib, ctx: Ctx, name: Option<string>, image: Option<string>) returns (r: Result<Profile>)
    requires db.Valid()
    modifies db
    ensures db.Valid()
    ensures db.projects == old(db.projects) && db.tasks == old(db.tasks) && db.leads == old(db.leads)
    ensures !HasUserId(ctx) ==> r == Fail(UNAUTHORIZED)
    ensures HasUserId(ctx) && ProfileIssues(lib, name, image) != [] ==> r == Invalid(ProfileIssues(lib, name, image))
    ensures HasUserId(ctx) && ProfileIssues(lib, name, image) == [] && CallerOf(ctx).id !in old(db.users) ==> r == DbError()
    ensures r.Ok? <==> HasUserId(ctx) && ProfileIssues(lib, name, image) == [] && CallerOf(ctx).id in old(db.users)
    ensures r.Ok? ==> var old_u := old(db.users)[CallerOf(ctx).id];
                      var u := old_u.(name := if name.Some? then Some(Text.Trim(name.value)) else old_u.name,
                                      image := if image.Some? then image else old_u.image);
                      db.users == old(db.users)[CallerOf(ctx).id := u] && r.value == ProfileOf(u)
    ensures r.Ok? ==> r.value.role == old(db.users)[CallerOf(ctx).id].role && r.value.email == old(db.users)[CallerOf(ctx).id].email
    ensures r.Err? ==> db.users == old(db.users)
  {
    var g := AuthGate(ctx);
    if g.Err? {
      return Err(g.error);
    }
    var issues := ProfileIssues(lib, name, image);
    if issues != [] {
      return Invalid(issues);
    }
    var uid := g.value.id;
    if uid !in db.users {
      return DbError();
    }
    var old_u := db.users[uid];
    var u := old_u.(name := if name.Some? then Some(Text.Trim(name.value)) else old_u.name,
                    image := if image.Some? then image else old_u.image);
    db.users := db.users[uid := u];
    return Ok(ProfileOf(u));
  }
}
