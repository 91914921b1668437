/**
 * The procedure gates (src/server/api/trpc.ts): a public procedure runs
 * unchecked, a protected one requires a session user id, an admin one
 * requires a session user id and the ADMIN role. An admin procedure does
 * NOT chain the protected gate, so an anonymous caller is answered
 * FORBIDDEN there, not UNAUTHORIZED.
 */
module Trpc {
  import opened Common

  /** The session user as decoded from the session; every field may be missing. */
  datatype SessionUser = SessionUser(id: Option<string>, role: Option<Role>, name: Option<string>, email: Option<string>)

  datatype Session = Session(user: Option<SessionUser>, expires: string)

  /** Procedure context: the session, absent for an anonymous request. */
  datatype Ctx = Ctx(session: Option<Session>)

  /** What a gate hands to the procedure body when it lets the call through. */
  datatype Caller = Caller(session: Session, user: SessionUser, id: Id)

  predicate IsAdmin(c: Caller) {
    c.user.role == Some(ADMIN)
  }

  /** `ctx.session?.user?.id` is truthy: present and not the empty string. */
  predicate HasUserId(ctx: Ctx) {
    && ctx.session.Some?
    && ctx.session.value.user.Some?
    && ctx.session.value.user.value.id.Some?
    && ctx.session.value.user.value.id.value != ""
  }

  predicate HasAdminRole(ctx: Ctx) {
    HasUserId(ctx) && ctx.session.value.user.value.role == Some(ADMIN)
  }

  /** The caller a gate forwards: the request's own session and user. */
  function CallerOf(ctx: Ctx): Caller
    requires HasUserId(ctx)
  {
    Caller(ctx.session.value, ctx.session.value.user.value, ctx.session.value.user.value.id.value)
  }

  /** `enforceUserIsAuthed`. */
  function AuthGate(ctx: Ctx): (r: Result<Caller>)
    ensures r.Err? <==> !HasUserId(ctx)
    ensures r.Err? ==> r.error.code == UNAUTHORIZED
    ensures r.Ok? ==> Some(r.value.session) == ctx.session && r.value.session.user == Some(r.value.user)
    ensures r.Ok? ==> r.value.user.id == Some(r.value.id) && r.value.id != ""
  {
    if !HasUserId(ctx) then Fail(UNAUTHORIZED) else Ok(CallerOf(ctx))
  }

  /** `enforceUserIsAdmin`: one test for both a missing id and a non-ADMIN role. */
  function AdminGate(ctx: Ctx): (r: Result<Caller>)
    ensures r.Err? <==> !HasAdminRole(ctx)
    ensures r.Err? ==> r.error.code == FORBIDDEN
    ensures r.Ok? ==> Some(r.value.session) == ctx.session && r.value.session.user == Some(r.value.user)
    ensures r.Ok? ==> r.value.user.id == Some(r.value.id) && r.value.id != "" && IsAdmin(r.value)
  {
    if !HasAdminRole(ctx) then Fail(FORBIDDEN) else Ok(CallerOf(ctx))
  }

  datatype ProcedureKind = PublicProcedure | ProtectedProcedure | AdminProcedure

  /**
   * The gate a procedure of the given kind runs before its body. On success
   * it yields the caller when there is one (a public procedure yields none).
   */
  function Gate(kind: ProcedureKind, ctx: Ctx): (r: Result<Option<Caller>>)
  {
    match kind
    case PublicProcedure => Ok(None)
    case ProtectedProcedure => (match AuthGate(ctx) case Ok(c) => Ok(Some(c)) case Err(e) => Err(e))
    case AdminProcedure => (match AdminGate(ctx) case Ok(c) => Ok(Some(c)) case Err(e) => Err(e))
  }

  /** A public procedure never rejects. */
  lemma PublicNeverRejects(ctx: Ctx)
    ensures Gate(PublicProcedure, ctx) == Ok(None)
  {
  }

  /** The admin condition is strictly stronger: whoever passes the admin gate passes the protected gate, as the same caller. */
  lemma AdminPassImpliesAuthPass(ctx: Ctx)
    ensures AdminGate(ctx).Ok? ==> AuthGate(ctx) == AdminGate(ctx)
    ensures (exists c: Ctx :: AuthGate(c).Ok? && AdminGate(c).Err?)
  {
    var u := SessionUser(Some("u"), Some(CLIENT), None, None);
    var c := Ctx(Some(Session(Some(u), "")));
    assert AuthGate(c).Ok? && AdminGate(c).Err?;
  }

  /** Anonymous callers: UNAUTHORIZED at a protected procedure but FORBIDDEN at an admin procedure. */
  lemma AnonymousCaller(ctx: Ctx)
    requires ctx.session.None?
    ensures Gate(ProtectedProcedure, ctx) == Fail(UNAUTHORIZED)
    ensures Gate(AdminProcedure, ctx) == Fail(FORBIDDEN)
  {
  }

  // ---- errorFormatter -------------------------------------------------

  /** `ZodError.flatten()`: form-level issues (empty path) and the set of failing fields. */
  datatype Flattened = Flattened(formLevel: bool, fieldErrors: set<string>)

  function Flatten(paths: seq<string>): (f: Flattened)
    ensures f.formLevel <==> "" in paths
    ensures forall p :: p in f.fieldErrors <==> p in paths && p != ""
  {
    Flattened("" in paths, set p | p in paths && p != "")
  }

  datatype ShapeData = ShapeData(code: ErrorCode, httpStatus: int, path: Option<string>, zodError: Option<Flattened>)

  datatype Shape = Shape(message: string, code: int, data: ShapeData)

  /**
   * `errorFormatter`: keep the default shape and set `data.zodError` to the
   * flattened validation error when the cause is one, to null otherwise.
   */
  function FormatError(shape: Shape, cause: Cause): (r: Shape)
    ensures r.data.zodError.Some? <==> cause.ZodCause?
    ensures cause.ZodCause? ==> r.data.zodError == Some(Flatten(cause.paths))
    ensures r.message == shape.message && r.code == shape.code
    ensures r.data.code == shape.data.code && r.data.httpStatus == shape.data.httpStatus && r.data.path == shape.data.path
  {
    var zodError := if cause.ZodCause? then Some(Flatten(cause.paths)) else None;
    shape.(data := shape.data.(zodError := zodError))
  }
}
