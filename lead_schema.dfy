/**
 * Lead input validation (src/lib/validations/lead.schema.ts): the ten
 * service keys and `leadCreateSchema`. As for the other schemas, length
 * checks measure the raw string and `.trim()` shapes the kept value.
 */
module LeadSchema {
  import opened Common
  import Text

  const SERVICE_KEYS: seq<string> := [
    "rpa", "agents", "saas", "web", "medical",
    "agriculture", "education", "energy", "construction", "consulting"]

  datatype LeadSource = Chatbot | ContactForm | Landing

  function SourceName(s: LeadSource): string {
    match s
    case Chatbot => "chatbot"
    case ContactForm => "contact_form"
    case Landing => "landing"
  }

  function ParseSource(s: string): (r: Option<LeadSource>)
    ensures r.Some? ==> SourceName(r.value) == s
    ensures forall v :: SourceName(v) == s ==> r == Some(v)
  {
    if s == "chatbot" then Some(Chatbot)
    else if s == "contact_form" then Some(ContactForm)
    else if s == "landing" then Some(Landing)
    else None
  }

  /** The service keys are ten distinct strings. */
  lemma ServiceKeysDistinct()
    ensures |SERVICE_KEYS| == 10
    ensures forall i, j | 0 <= i < j < |SERVICE_KEYS| :: SERVICE_KEYS[i] != SERVICE_KEYS[j]
  {
  }

  /** A character of the phone pattern's class: `+`, a digit, white space, `-`, `(` or `)`. */
  predicate PhoneChar(c: char) {
    c == '+' || Text.IsDigit(c) || Text.IsSpace(c) || c == '-' || c == '(' || c == ')'
  }

  /** `/^[\+\d\s\-\(\)]{7,20}$/`. */
  predicate PhonePattern(s: string) {
    7 <= |s| <= 20 && forall i | 0 <= i < |s| :: PhoneChar(s[i])
  }

  /** `phone`: the pattern, made optional, or the empty string. */
  predicate PhoneOk(p: Option<string>) {
    p.None? || p.value == "" || PhonePattern(p.value)
  }

  /** `company`: at most 200 characters, made optional, or the empty string. */
  predicate CompanyOk(c: Option<string>) {
    c.None? || |c.value| <= 200 || c.value == ""
  }

  predicate ServiceOk(s: Option<string>) {
    s.None? || s.value in SERVICE_KEYS
  }

  datatype LeadRaw = LeadRaw(
    name: Option<string>, email: Option<string>, phone: Option<string>, company: Option<string>,
    message: Option<string>, service: Option<string>, source: Option<string>)

  datatype LeadInput = LeadInput(
    name: string, email: string, phone: Option<string>, company: Option<string>,
    message: string, service: Option<string>, source: LeadSource)

  /** The email rule shared by the schemas: recognised, then lower-cased and trimmed. */
  function NormalizeEmail(raw: string): (r: string)
  {
    Text.Trim(Text.ToLower(raw))
  }

  function LeadIssues(lib: Lib, raw: LeadRaw): seq<string> {
    (if raw.name.None? || !(2 <= |raw.name.value| <= 200) then ["name"] else [])
    + (if raw.email.None? || !lib.isEmail(raw.email.value) then ["email"] else [])
    + (if !PhoneOk(raw.phone) then ["phone"] else [])
    + (if !CompanyOk(raw.company) then ["company"] else [])
    + (if raw.message.None? || !(20 <= |raw.message.value| <= 5000) then ["message"] else [])
    + (if !ServiceOk(raw.service) then ["service"] else [])
    + (if raw.source.Some? && ParseSource(raw.source.value).None? then ["source"] else [])
  }

  /** `leadCreateSchema.parse`. */
  function ParseLead(lib: Lib, raw: LeadRaw): (r: Result<LeadInput>)
    ensures r.Ok? <==> LeadIssues(lib, raw) == []
    ensures r.Err? ==> r.error.code == BAD_REQUEST && r.error.cause == ZodCause(LeadIssues(lib, raw))
    ensures r.Ok? ==> raw.name.Some? && 2 <= |raw.name.value| <= 200 && r.value.name == Text.Trim(raw.name.value)
    ensures r.Ok? ==> raw.email.Some? && lib.isEmail(raw.email.value) && r.value.email == NormalizeEmail(raw.email.value)
    ensures r.Ok? ==> r.value.phone == raw.phone && PhoneOk(raw.phone)
    ensures r.Ok? ==> CompanyOk(raw.company) && (raw.company.Some? <==> r.value.company.Some?)
    ensures r.Ok? && raw.company.Some? ==> r.value.company.value == Text.Trim(raw.company.value)
    ensures r.Ok? ==> raw.message.Some? && 20 <= |raw.message.value| <= 5000 && r.value.message == Text.Trim(raw.message.value)
    ensures r.Ok? ==> r.value.service == raw.service && (raw.service.Some? ==> raw.service.value in SERVICE_KEYS)
    ensures r.Ok? && raw.source.None? ==> r.value.source == ContactForm
    ensures r.Ok? && raw.source.Some? ==> SourceName(r.value.source) == raw.source.value
  {
    var issues := LeadIssues(lib, raw);
    if issues != [] then Invalid(issues)
    else
      Ok(LeadInput(
        Text.Trim(raw.name.value), NormalizeEmail(raw.email.value), raw.phone,
        if raw.company.Some? then Some(Text.Trim(raw.company.value)) else None,
        Text.Trim(raw.message.value), raw.service,
        if raw.source.Some? then ParseSource(raw.source.value).value else ContactForm))
  }

  /** A phone number is accepted exactly when absent, empty, or 7 to 20 characters of the pattern's class. */
  lemma PhoneRule(lib: Lib, raw: LeadRaw)
    ensures ParseLead(lib, raw).Ok? ==> raw.phone.None? || raw.phone.value == "" || (7 <= |raw.phone.value| <= 20)
    ensures "phone" in LeadIssues(lib, raw) <==> raw.phone.Some? && raw.phone.value != "" && !PhonePattern(raw.phone.value)
  {
  }

  /** Concrete instances of the phone rule. */
  lemma PhoneExamples()
    ensures PhonePattern("+243 (81) 555-0100")
    ensures !PhonePattern("555-01")
    ensures !PhonePattern("+243 81 555 01 00 ext 2")
    ensures PhoneOk(Some("")) && !PhonePattern("")
  {
    assert |"555-01"| == 6;
    assert "+243 81 555 01 00 ext 2"[18] == 'e';
  }
}
