/**
 * Authentication configuration (src/lib/auth.ts): the credentials check,
 * the two callbacks that carry the user's id and role from sign-in into
 * the JWT and from the JWT into every session, and password hashing.
 * bcrypt's hash and compare are the `hash` and `compare` of `Lib`.
 */
module AuthLib {
  import opened Common
  import opened Store
  import Trpc
  import AuthSchema
  import LeadSchema

  /** Session lifetime in seconds: 30 days. */
  const SESSION_MAX_AGE: nat := 30 * 24 * 60 * 60

  /** The sign-in and error page. */
  const SIGN_IN_PAGE: string := "/fr/connexion"

  /** bcrypt cost factor used for every stored password. */
  const BCRYPT_COST: nat := 12

  /** `hashPassword`. */
  function HashPassword(lib: Lib, password: string): (h: string)
    ensures h == lib.hash(password, BCRYPT_COST)
  {
    lib.hash(password, BCRYPT_COST)
  }

  /** The user `authorize` hands to Auth.js. */
  datatype AuthUser = AuthUser(id: Id, email: string, name: Option<string>, image: Option<string>, role: Option<Role>)

  /** The stored user can sign in with a password: a non-empty hash that the password matches. */
  predicate PasswordMatches(lib: Lib, u: User, password: string) {
    u.passwordHash.Some? && u.passwordHash.value != "" && lib.compare(password, u.passwordHash.value)
  }

  /**
   * `authorize`: null for credentials that fail the login schema, for an
   * unknown email, for a user without a password hash and for a wrong
   * password; otherwise the user's public fields and role.
   */
  function Authorize(users: map<Id, User>, lib: Lib, creds: AuthSchema.LoginRaw): (r: Option<AuthUser>)
    requires UniqueEmails(users) && KeyedUsers(users)
    ensures r.Some? <==> && AuthSchema.ParseLogin(lib, creds).Ok?
                         && var c := AuthSchema.ParseLogin(lib, creds).value;
                            exists k | k in users :: users[k].email == c.email && PasswordMatches(lib, users[k], c.password)
    ensures r.Some? ==> && r.value.id in users
                        && var u := users[r.value.id];
                           && u.email == AuthSchema.ParseLogin(lib, creds).value.email
                           && r.value == AuthUser(u.id, u.email, u.name, u.image, Some(u.role))
  {
    match AuthSchema.ParseLogin(lib, creds)
    case Err(_) => None
    case Ok(c) =>
      match UserByEmail(users, c.email)
      case None => None
      case Some(u) =>
        if u.passwordHash.None? || u.passwordHash.value == "" then None
        else if !lib.compare(c.password, u.passwordHash.value) then None
        else Some(AuthUser(u.id, u.email, u.name, u.image, Some(u.role)))
  }

  /**
   * The JWT of a session. The `jwt` callback writes `id` and `role` when a
   * sign-in just happened; the other claims are Auth.js's own and are not
   * modelled.
   */
  class Token {
    var id: Option<Id>
    var role: Option<Role>

    constructor ()
      ensures id.None? && role.None?
    {
      id, role := None, None;
    }

    /** The `jwt` callback: copies the signed-in user's id, and role defaulting to CLIENT. */
    method Jwt(user: Option<AuthUser>)
      modifies this
      ensures user.Some? ==> id == Some(user.value.id) && role == Some(RoleOrClient(user.value.role))
      ensures user.None? ==> id == old(id) && role == old(role)
    {
      if user.Some? {
        id := Some(user.value.id);
        role := Some(RoleOrClient(user.value.role));
      }
    }
  }

  function RoleOrClient(r: Option<Role>): Role {
    if r.Some? then r.value else CLIENT
  }

  /** The session handed to the application, rebuilt from the token on every request. */
  class SessionBox {
    var user: Option<Trpc.SessionUser>

    constructor (user: Option<Trpc.SessionUser>)
      ensures this.user == user
    {
      this.user := user;
    }

    /** The `session` callback: when there is a session user, sets its id and role from the token. */
    method FromToken(token: Token)
      modifies this
      ensures old(user).None? ==> user.None?
      ensures old(user).Some? ==> user == Some(old(user).value.(id := token.id, role := token.role))
    {
      if user.Some? {
        user := Some(user.value.(id := token.id, role := token.role));
      }
    }
  }

  /** The session user after a sign-in as `u` went through both callbacks. */
  function SignedIn(u: AuthUser, s: Trpc.SessionUser): Trpc.SessionUser {
    s.(id := Some(u.id), role := Some(RoleOrClient(u.role)))
  }

  /**
   * The two callbacks in sequence: at sign-in the `jwt` callback sees the
   * user and the `session` callback copies its claims, so the session user
   * is `SignedIn(u, s)`; on a later request the `jwt` callback sees no user,
   * the token keeps its claims, and the next session carries them again.
   */
  method SignInCallbacks(u: AuthUser, s: Trpc.SessionUser, later: Trpc.SessionUser) returns (first: SessionBox, next: SessionBox)
    ensures first.user == Some(SignedIn(u, s))
    ensures next.user == Some(SignedIn(u, later))
  {
    var token := new Token();
    token.Jwt(Some(u));
    first := new SessionBox(Some(s));
    first.FromToken(token);
    token.Jwt(None);
    next := new SessionBox(Some(later));
    next.FromToken(token);
  }

  /** A user who signed in passes the protected gate, and the admin gate exactly when their stored role is ADMIN. */
  lemma {:induction false} SignInReachesGates(users: map<Id, User>, lib: Lib, creds: AuthSchema.LoginRaw, s: Trpc.SessionUser, expires: string)
    requires UniqueEmails(users) && KeyedUsers(users) && "" !in users
    requires Authorize(users, lib, creds).Some?
    ensures var u := Authorize(users, lib, creds).value;
            var ctx := Trpc.Ctx(Some(Trpc.Session(Some(SignedIn(u, s)), expires)));
            && Trpc.AuthGate(ctx).Ok? && Trpc.AuthGate(ctx).value.id == u.id
            && (Trpc.AdminGate(ctx).Ok? <==> users[u.id].role == ADMIN)
  {
    var u := Authorize(users, lib, creds).value;
    assert u.id in users;
    assert u.id != "";
  }

  /** The stored row of a new account. */
  function NewUser(id: Id, lib: Lib, name: string, email: string, password: string, role: Role, now: int): User {
    User(id, email, Some(name), None, Some(HashPassword(lib, password)), role, now)
  }

  /**
   * Whoever registers (registration schema, then a new row) can then sign in
   * with the same email and password, provided bcrypt verifies its own
   * hashes and never yields the empty string.
   */
  lemma {:induction false} RegisteredUserCanSignIn(
    users: map<Id, User>, lib: Lib, raw: AuthSchema.RegisterRaw, id: Id, now: int)
    requires UniqueEmails(users) && KeyedUsers(users) && id !in users
    requires AuthSchema.ParseRegister(lib, raw).Ok?
    requires UserByEmail(users, AuthSchema.ParseRegister(lib, raw).value.email).None?
    requires var p := AuthSchema.ParseRegister(lib, raw).value.password;
             lib.compare(p, lib.hash(p, BCRYPT_COST)) && lib.hash(p, BCRYPT_COST) != ""
    ensures var reg := AuthSchema.ParseRegister(lib, raw).value;
            var users' := users[id := NewUser(id, lib, reg.name, reg.email, reg.password, CLIENT, now)];
            && UniqueEmails(users') && KeyedUsers(users')
            && Authorize(users', lib, AuthSchema.LoginRaw(raw.email, raw.password)) == Some(AuthUser(id, reg.email, Some(reg.name), None, Some(CLIENT)))
  {
    var reg := AuthSchema.ParseRegister(lib, raw).value;
    var nu := NewUser(id, lib, reg.name, reg.email, reg.password, CLIENT, now);
    var users' := users[id := nu];
    assert UniqueEmails(users');
    var creds := AuthSchema.LoginRaw(raw.email, raw.password);
    AuthSchema.RegisterPasswordStricterThanLogin(reg.password);
    assert AuthSchema.ParseLogin(lib, creds).Ok?;
    assert AuthSchema.ParseLogin(lib, creds).value.email == reg.email;
    assert id in users' && users'[id].email == reg.email;
    assert UserByEmail(users', reg.email) == Some(nu);
  }
}
