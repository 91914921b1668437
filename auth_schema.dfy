/**
 * Login and registration validation (src/lib/validations/auth.schema.ts).
 * The registration refine (password equals its confirmation) runs whenever
 * every field is present, even when some field failed a check, and reports
 * on `confirmPassword`.
 */
module AuthSchema {
  import opened Common
  import Text
  import LeadSchema

  datatype LoginRaw = LoginRaw(email: Option<string>, password: Option<string>)
  datatype Credentials = Credentials(email: string, password: string)

  function LoginIssues(lib: Lib, raw: LoginRaw): seq<string> {
    (if raw.email.None? || !lib.isEmail(raw.email.value) then ["email"] else [])
    + (if raw.password.None? || |raw.password.value| < 8 then ["password"] else [])
  }

  /** `loginSchema.parse`: any password of at least 8 characters, no composition rule. */
  function ParseLogin(lib: Lib, raw: LoginRaw): (r: Result<Credentials>)
    ensures r.Ok? <==> raw.email.Some? && lib.isEmail(raw.email.value) && raw.password.Some? && |raw.password.value| >= 8
    ensures r.Ok? ==> r.value == Credentials(LeadSchema.NormalizeEmail(raw.email.value), raw.password.value)
    ensures r.Err? ==> r.error.code == BAD_REQUEST && r.error.cause == ZodCause(LoginIssues(lib, raw))
  {
    var issues := LoginIssues(lib, raw);
    if issues != [] then Invalid(issues)
    else Ok(Credentials(LeadSchema.NormalizeEmail(raw.email.value), raw.password.value))
  }

  predicate HasLower(s: string) { exists i | 0 <= i < |s| :: 'a' <= s[i] <= 'z' }
  predicate HasUpper(s: string) { exists i | 0 <= i < |s| :: 'A' <= s[i] <= 'Z' }
  predicate HasDigit(s: string) { exists i | 0 <= i < |s| :: Text.IsDigit(s[i]) }

  /** The characters that `.` in a JavaScript regular expression does not match. */
  predicate IsLineTerminator(c: char) {
    c == '\n' || c == '\r' || c == '\U{2028}' || c == '\U{2029}'
  }

  /** The text before the first line terminator: all that `^(?=.*…)` can look at. */
  function FirstLine(s: string): (r: string)
    ensures |r| <= |s| && r == s[..|r|]
    ensures forall i | 0 <= i < |r| :: !IsLineTerminator(r[i])
    ensures |r| < |s| ==> IsLineTerminator(s[|r|])
  {
    if s == [] || IsLineTerminator(s[0]) then [] else [s[0]] + FirstLine(s[1..])
  }

  /**
   * The registration password rule: 8 characters, and the three
   * look-aheads anchored at the start, each scanning with `.*`, so a
   * lower-case letter, an upper-case letter and a digit must all come
   * before the first line terminator.
   */
  predicate StrongPassword(p: string) {
    var line := FirstLine(p);
    |p| >= 8 && HasLower(line) && HasUpper(line) && HasDigit(line)
  }

  /** On a single line the rule asks for one character of each class anywhere. */
  lemma {:induction false} SingleLineRule(p: string)
    requires forall i | 0 <= i < |p| :: !IsLineTerminator(p[i])
    ensures StrongPassword(p) <==> |p| >= 8 && HasLower(p) && HasUpper(p) && HasDigit(p)
  {
    assert FirstLine(p) == p;
  }

  /** A class that appears only after a line break does not count. */
  lemma LineBreakHidesClasses()
    ensures !StrongPassword("A1\nabcdefg")
    ensures StrongPassword("abcdefA1")
  {
    var p := "A1\nabcdefg";
    assert FirstLine(p[2..]) == [];
    assert FirstLine(p) == "A1";
    assert !HasLower("A1") by {
      forall i | 0 <= i < 2 ensures !('a' <= "A1"[i] <= 'z') {}
    }
    SingleLineRule("abcdefA1");
    assert 'a' <= "abcdefA1"[0] <= 'z' && 'A' <= "abcdefA1"[6] <= 'Z' && Text.IsDigit("abcdefA1"[7]);
  }

  datatype RegisterRaw = RegisterRaw(name: Option<string>, email: Option<string>, password: Option<string>, confirmPassword: Option<string>)
  datatype Registration = Registration(name: string, email: string, password: string)

  predicate AllPresent(raw: RegisterRaw) {
    raw.name.Some? && raw.email.Some? && raw.password.Some? && raw.confirmPassword.Some?
  }

  function RegisterIssues(lib: Lib, raw: RegisterRaw): seq<string> {
    (if raw.name.None? || !(2 <= |raw.name.value| <= 100) then ["name"] else [])
    + (if raw.email.None? || !lib.isEmail(raw.email.value) then ["email"] else [])
    + (if raw.password.None? || !StrongPassword(raw.password.value) then ["password"] else [])
    + (if raw.confirmPassword.None? then ["confirmPassword"] else [])
    + (if AllPresent(raw) && raw.password.value != raw.confirmPassword.value then ["confirmPassword"] else [])
  }

  /** `registerSchema.parse`. */
  function ParseRegister(lib: Lib, raw: RegisterRaw): (r: Result<Registration>)
    ensures r.Ok? <==> RegisterIssues(lib, raw) == []
    ensures r.Err? ==> r.error.code == BAD_REQUEST && r.error.cause == ZodCause(RegisterIssues(lib, raw))
    ensures r.Ok? ==> AllPresent(raw) && raw.password.value == raw.confirmPassword.value
    ensures r.Ok? ==> 2 <= |raw.name.value| <= 100 && r.value.name == Text.Trim(raw.name.value)
    ensures r.Ok? ==> lib.isEmail(raw.email.value) && r.value.email == LeadSchema.NormalizeEmail(raw.email.value)
    ensures r.Ok? ==> StrongPassword(raw.password.value) && r.value.password == raw.password.value
  {
    var issues := RegisterIssues(lib, raw);
    if issues != [] then Invalid(issues)
    else Ok(Registration(Text.Trim(raw.name.value), LeadSchema.NormalizeEmail(raw.email.value), raw.password.value))
  }

  /** A mismatched confirmation is always reported, on `confirmPassword`, whatever else fails. */
  lemma MismatchReportedOnConfirm(lib: Lib, raw: RegisterRaw)
    requires AllPresent(raw) && raw.password.value != raw.confirmPassword.value
    ensures ParseRegister(lib, raw).Err?
    ensures "confirmPassword" in RegisterIssues(lib, raw)
  {
    var issues := RegisterIssues(lib, raw);
    assert issues[|issues| - 1] == "confirmPassword";
  }

  /** The registration rule is strictly stronger than the login rule for passwords. */
  lemma RegisterPasswordStricterThanLogin(p: string)
    ensures StrongPassword(p) ==> |p| >= 8
    ensures |"password"| >= 8 && !StrongPassword("password")
  {
    assert !HasUpper("password") by {
      forall i | 0 <= i < 8 ensures !('A' <= "password"[i] <= 'Z') {}
    }
  }
}
