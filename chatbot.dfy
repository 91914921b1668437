/**
 * The landing-page concierge (src/components/landing/ChatBot.tsx): a
 * scripted conversation driven by quick replies and a text box, that
 * either shows a signed-in client the progress of their projects or walks
 * a visitor through the catalogue and collects a lead (name, email,
 * service, message) which it sends to `leads.create` with source
 * "chatbot".
 *
 * Bot messages are identified by a `Prompt` rather than their French or
 * English wording. `botSay` shows the typing indicator and delivers the
 * message after a delay; here the message waits in `pending` until a
 * `Deliver` step, which is what the timer does.
 */
module ChatBot {
  import opened Common
  import Text
  import LeadSchema
  import ProjectCard
  import Numeric

  datatype Flow =
    | Welcome | ServiceList | ServiceDetail | LeadName | LeadEmail
    | LeadService | LeadMessage | LeadDone | ProjectCheck

  /** `showInput`: the text box is shown only while a lead field is asked for. */
  predicate ShowInput(f: Flow) {
    f == LeadName || f == LeadEmail || f == LeadMessage
  }

  // ---- quick-reply values -------------------------------------------------

  /** What a quick reply asks for; its `value` string is `Encode` of it. */
  datatype Action =
    | ChooseLeadService(key: string)   // "lsvc_<key>"
    | ShowService(key: string)         // "svc_<key>"
    | Interested(key: string)          // "go_<key>"
    | CheckProjects
    | Discover
    | Expert
    | Quote
    | Unknown(value: string)

  function Encode(a: Action): string {
    match a
    case ChooseLeadService(k) => "lsvc_" + k
    case ShowService(k) => "svc_" + k
    case Interested(k) => "go_" + k
    case CheckProjects => "check_projects"
    case Discover => "discover"
    case Expert => "expert"
    case Quote => "quote"
    case Unknown(v) => v
  }

  /**
   * The dispatch of `handleAction`: the three prefixes in order, then the
   * fixed values; anything else falls to the default branch.
   */
  function Decode(v: string): (a: Action)
    ensures Encode(a) == v
    ensures a.Unknown? <==> !Text.StartsWith(v, "lsvc_") && !Text.StartsWith(v, "svc_") && !Text.StartsWith(v, "go_")
                            && v !in ["check_projects", "discover", "expert", "quote"]
  {
    if Text.StartsWith(v, "lsvc_") then ChooseLeadService(v[5..])
    else if Text.StartsWith(v, "svc_") then ShowService(v[4..])
    else if Text.StartsWith(v, "go_") then Interested(v[3..])
    else if v == "check_projects" then CheckProjects
    else if v == "discover" then Discover
    else if v == "expert" then Expert
    else if v == "quote" then Quote
    else Unknown(v)
  }

  /** A string whose first character differs from the prefix's does not start with it. */
  lemma FirstCharDiffers(s: string, prefix: string)
    requires s != [] && prefix != [] && s[0] != prefix[0]
    ensures !Text.StartsWith(s, prefix)
  {
    if |prefix| <= |s| {
      assert s[..|prefix|][0] == s[0];
    }
  }

  /** Every action the bot offers is recognised again from its value. */
  lemma DecodeEncode(a: Action)
    requires !a.Unknown?
    ensures Decode(Encode(a)) == a
  {
    var v := Encode(a);
    match a {
      case ChooseLeadService(k) =>
        assert v[..5] == "lsvc_";
        assert v[5..] == k;
      case ShowService(k) =>
        FirstCharDiffers(v, "lsvc_");
        assert v[..4] == "svc_";
        assert v[4..] == k;
      case Interested(k) =>
        FirstCharDiffers(v, "lsvc_");
        FirstCharDiffers(v, "svc_");
        assert v[..3] == "go_";
        assert v[3..] == k;
      case _ =>
        FirstCharDiffers(v, "lsvc_");
        FirstCharDiffers(v, "svc_");
        FirstCharDiffers(v, "go_");
    }
  }

  /** An action that carries a service key. */
  predicate Keyed(a: Action) {
    a.ChooseLeadService? || a.ShowService? || a.Interested?
  }

  /** An action the conversation knows how to answer, with a key of the catalogue. */
  predicate Known(a: Action) {
    !a.Unknown? && (Keyed(a) ==> a.key in LeadSchema.SERVICE_KEYS)
  }

  /**
   * The ten catalogue replies, in catalogue order (`SKS.map(...)`):
   * choices of the lead's service while a lead is being collected,
   * service descriptions otherwise.
   */
  function ServiceReplies(forLead: bool): (r: seq<Action>)
    ensures |r| == |LeadSchema.SERVICE_KEYS|
    ensures forall i | 0 <= i < |r| :: Keyed(r[i]) && r[i].key == LeadSchema.SERVICE_KEYS[i]
    ensures forall a | a in r :: Known(a) && (a.ChooseLeadService? <==> forLead)
  {
    seq(|LeadSchema.SERVICE_KEYS|, i requires 0 <= i < |LeadSchema.SERVICE_KEYS| =>
      if forLead then ChooseLeadService(LeadSchema.SERVICE_KEYS[i]) else ShowService(LeadSchema.SERVICE_KEYS[i]))
  }

  // ---- messages -------------------------------------------------------------

  /** What a bot message says, standing for its wording in either language. */
  datatype Prompt =
    | WelcomeMember(firstName: string)
    | WelcomeGuest
    | AskName
    | ServiceChosen(key: string)
    | ServiceInfo(key: string)
    | NoProjects
    | ProjectStatus(count: nat)
    | ServiceMenu
    | AskEmail(firstName: string)
    | AskMessage
    | AskService
    | Received(nameWord: Option<string>, leadEmail: Option<string>)
    | Forwarding
    | StillLearning

  datatype Msg =
    | UserMsg(text: string)
    | BotMsg(prompt: Prompt, qrs: seq<Action>, showProjects: bool)

  /** The quick replies of a message; each shows the value `Encode` of its action. */
  function Replies(m: Msg): seq<Action> {
    if m.BotMsg? then m.qrs else []
  }

  /** `clearQRs`: every message loses its quick replies. */
  function ClearAll(ms: seq<Msg>): (r: seq<Msg>)
    ensures |r| == |ms|
    ensures forall i | 0 <= i < |ms| :: Replies(r[i]) == [] && (ms[i].UserMsg? ==> r[i] == ms[i])
    ensures forall i | 0 <= i < |ms| :: ms[i].BotMsg? ==> r[i].BotMsg? && r[i].prompt == ms[i].prompt && r[i].showProjects == ms[i].showProjects
  {
    seq(|ms|, i requires 0 <= i < |ms| => if ms[i].BotMsg? then ms[i].(qrs := []) else ms[i])
  }

  /** The first word of a name (`split(" ")[0]`). */
  function FirstWord(s: string): string {
    Text.Split(s, ' ')[0]
  }

  /** The user of `auth.me`, when signed in. */
  datatype Member = Member(name: Option<string>)

  /** The greeting: a member is offered their projects, a visitor a quote. */
  function Greeting(me: Option<Member>): (m: Msg)
    ensures m.BotMsg? && !m.showProjects
    ensures m.prompt.WelcomeMember? <==> me.Some?
    ensures CheckProjects in m.qrs <==> me.Some?
    ensures Quote in m.qrs <==> me.None?
    ensures Discover in m.qrs && Expert in m.qrs
  {
    if me.Some? then
      BotMsg(WelcomeMember(if me.value.name.Some? then FirstWord(me.value.name.value) else ""),
             [CheckProjects, Discover, Expert], false)
    else
      BotMsg(WelcomeGuest, [Discover, Quote, Expert], false)
  }

  /** The answer to "check_projects", given `projects?.length` (none while not loaded). */
  function ProjectsReply(projectCount: Option<nat>): Msg {
    if projectCount.None? || projectCount.value == 0 then BotMsg(NoProjects, [Expert], false)
    else BotMsg(ProjectStatus(projectCount.value), [Expert], true)
  }

  const ASK_NAME: Msg := BotMsg(AskName, [], false)

  // ---- the lead -------------------------------------------------------------

  /** The lead collected so far (the `lead` state; its `message` is never stored there). */
  datatype Draft = Draft(name: Option<string>, email: Option<string>, service: Option<string>)

  /** A non-space, non-`@` character: `[^\s@]`. */
  predicate Plain(c: char) {
    c != '@' && !Text.IsSpace(c)
  }

  /** The states of a left-to-right match of the email pattern. */
  datatype Scan = Local0 | Local | Domain0 | Domain | Dot | Tail | Reject

  /**
   * One character of the match: plain characters before the `@`, the
   * `@` once some came, then plain characters in which a dot after the
   * first one is followed by at least one more.
   */
  function Step(q: Scan, c: char): Scan {
    if !Plain(c) && !(c == '@' && q == Local) then Reject
    else
      match q
      case Local0 => Local
      case Local => if c == '@' then Domain0 else Local
      case Domain0 => Domain
      case Domain => if c == '.' then Dot else Domain
      case Dot => Tail
      case Tail => Tail
      case Reject => Reject
  }

  function Run(q: Scan, s: string): Scan
    decreases |s|
  {
    if s == [] then q else Run(Step(q, s[0]), s[1..])
  }

  /** `/^[^\s@]+@[^\s@]+\.[^\s@]+$/.test(s)`. */
  predicate EmailLike(s: string) {
    Run(Local0, s) == Tail
  }

  /** The pattern takes an address with a dotted domain and refuses one without a dot. */
  lemma EmailExamples()
    ensures EmailLike("a@b.c")
    ensures !EmailLike("a@b")
  {
  }

  /** The pattern refuses a space, an empty local part and an empty domain label. */
  lemma EmailRefusals()
    ensures !EmailLike("a b@c.d")
    ensures !EmailLike("@b.c")
    ensures !EmailLike("a@.c")
  {
  }

  /** A name the flow accepts: at least two characters, already trimmed. */
  predicate NameOk(n: Option<string>) {
    n.Some? && 2 <= |n.value| && Text.Trimmed(n.value)
  }

  predicate EmailOk(e: Option<string>) {
    e.Some? && EmailLike(e.value)
  }

  /** A message the flow accepts: at least twenty characters, already trimmed. */
  predicate MessageOk(m: Option<string>) {
    m.Some? && 20 <= |m.value| && Text.Trimmed(m.value)
  }

  predicate DraftOk(d: Draft) {
    && (d.name.None? || NameOk(d.name))
    && (d.email.None? || EmailOk(d.email))
    && LeadSchema.ServiceOk(d.service)
  }

  /** The request `createLead.mutateAsync` sends for a draft and a message. */
  function Request(d: Draft, message: string): LeadSchema.LeadRaw {
    LeadSchema.LeadRaw(d.name, d.email, None, None, Some(message), d.service,
                       Some(LeadSchema.SourceName(LeadSchema.Chatbot)))
  }

  /** What every chatbot submission satisfies. */
  predicate Submittable(r: LeadSchema.LeadRaw) {
    && NameOk(r.name) && EmailOk(r.email) && MessageOk(r.message)
    && r.phone.None? && r.company.None?
    && LeadSchema.ServiceOk(r.service)
    && r.source == Some("chatbot")
  }

  /**
   * The server accepts a chatbot submission whenever the name and message
   * fit the schema's upper bounds and the email is one the schema
   * recognises; the lead is stored with exactly the typed name and
   * message, the chosen service and the chatbot as source.
   */
  lemma SubmissionAccepted(lib: Lib, r: LeadSchema.LeadRaw)
    requires Submittable(r)
    requires |r.name.value| <= 200 && |r.message.value| <= 5000 && lib.isEmail(r.email.value)
    ensures LeadSchema.ParseLead(lib, r).Ok?
    ensures LeadSchema.ParseLead(lib, r).value.name == r.name.value
    ensures LeadSchema.ParseLead(lib, r).value.message == r.message.value
    ensures LeadSchema.ParseLead(lib, r).value.service == r.service
    ensures LeadSchema.ParseLead(lib, r).value.source == LeadSchema.Chatbot
  {
    assert LeadSchema.PhoneOk(r.phone) && LeadSchema.CompanyOk(r.company);
    assert LeadSchema.ParseSource("chatbot") == Some(LeadSchema.Chatbot);
    assert LeadSchema.LeadIssues(lib, r) == [];
    Text.TrimmedIffFixed(r.name.value);
    Text.TrimmedIffFixed(r.message.value);
  }

  /** A reply is allowed on screen: known, and a lead-service reply only once name and email are in. */
  predicate ReplyOk(a: Action, d: Draft) {
    Known(a) && (a.ChooseLeadService? ==> d.name.Some? && d.email.Some?)
  }

  predicate RepliesOk(ms: seq<Msg>, d: Draft) {
    forall m | m in ms :: forall q | q in Replies(m) :: ReplyOk(q, d)
  }

  predicate NoReplies(ms: seq<Msg>) {
    forall m | m in ms :: Replies(m) == []
  }

  /** Whatever was allowed stays allowed once the draft has more in it. */
  lemma RepliesOkGrow(ms: seq<Msg>, d: Draft, e: Draft)
    requires RepliesOk(ms, d)
    requires d.name.Some? ==> e.name.Some?
    requires d.email.Some? ==> e.email.Some?
    ensures RepliesOk(ms, e)
  {
  }

  lemma ClearAllEmpty(ms: seq<Msg>)
    ensures NoReplies(ClearAll(ms))
  {
    var r := ClearAll(ms);
    forall m | m in r ensures Replies(m) == [] {
      var i :| 0 <= i < |r| && r[i] == m;
    }
  }

  lemma Concat(a: seq<Msg>, b: seq<Msg>, d: Draft)
    ensures RepliesOk(a + b, d) <==> RepliesOk(a, d) && RepliesOk(b, d)
    ensures NoReplies(a + b) <==> NoReplies(a) && NoReplies(b)
  {
    assert forall m :: m in a + b <==> m in a || m in b;
  }

  lemma NoRepliesOk(ms: seq<Msg>, d: Draft)
    requires NoReplies(ms)
    ensures RepliesOk(ms, d)
  {
  }

  // ---- what the bot answers ---------------------------------------------------

  /** One answer of the bot: the next flow, active service and draft, and the message it says. */
  datatype Turn = Turn(flow: Flow, activeSvc: Option<string>, lead: Draft, say: Msg)

  /** `startLead(svc)`: a given service becomes the active one and the lead's; then the name is asked. */
  function StartLead(svc: Option<string>, activeSvc: Option<string>, lead: Draft): (t: Turn)
    ensures t.flow == LeadName && t.say == ASK_NAME
    ensures t.lead.name == lead.name && t.lead.email == lead.email
    ensures svc.Some? ==> t.activeSvc == svc && t.lead.service == svc
    ensures svc.None? ==> t.activeSvc == activeSvc && t.lead == lead
  {
    if svc.Some? then Turn(LeadName, svc, lead.(service := svc), ASK_NAME)
    else Turn(LeadName, activeSvc, lead, ASK_NAME)
  }

  /**
   * The dispatch of `handleAction` after the quick replies are cleared and
   * the label is said. An action never touches the name or the email of the
   * draft; the default branch forwards the request and changes nothing else.
   */
  function Answer(a: Action, flow: Flow, activeSvc: Option<string>, lead: Draft, projectCount: Option<nat>): (t: Turn)
    ensures t.lead.name == lead.name && t.lead.email == lead.email
    ensures a.Unknown? <==> t.say.BotMsg? && t.say.prompt == Forwarding
    ensures a.Unknown? ==> t.flow == flow && t.activeSvc == activeSvc && t.lead == lead
  {
    match a
    case ChooseLeadService(k) =>
      Turn(LeadMessage, activeSvc, lead.(service := Some(k)), BotMsg(ServiceChosen(k), [], false))
    case ShowService(k) =>
      Turn(ServiceDetail, Some(k), lead, BotMsg(ServiceInfo(k), [Interested(k), Discover], false))
    case Interested(k) => StartLead(Some(k), activeSvc, lead)
    case CheckProjects => Turn(ProjectCheck, activeSvc, lead, ProjectsReply(projectCount))
    case Discover => Turn(ServiceList, activeSvc, lead, BotMsg(ServiceMenu, ServiceReplies(false), false))
    case Expert => StartLead(activeSvc, activeSvc, lead)
    case Quote => StartLead(activeSvc, activeSvc, lead)
    case Unknown(_) => Turn(flow, activeSvc, lead, BotMsg(Forwarding, [Expert], false))
  }

  /** The bot's answers keep the lead flow in order and offer only replies it can answer. */
  predicate TurnOk(t: Turn) {
    && LeadOk(t.flow, t.lead, t.activeSvc)
    && (forall q | q in Replies(t.say) :: ReplyOk(q, t.lead))
    && (ShowInput(t.flow) ==> Replies(t.say) == [])
  }

  /**
   * Answering a reply that was allowed on screen keeps the lead in
   * order: choosing the lead's service moves on to the message only
   * because such a reply is offered once name and email are in, and a
   * service the bot makes active comes from the catalogue. The answer's
   * flow is never the default one.
   */
  lemma {:induction false} AnswerKeeps(a: Action, flow: Flow, activeSvc: Option<string>, lead: Draft, projectCount: Option<nat>)
    requires ReplyOk(a, lead) && LeadOk(Welcome, lead, activeSvc)
    ensures TurnOk(Answer(a, flow, activeSvc, lead, projectCount))
    ensures Answer(a, flow, activeSvc, lead, projectCount).say.prompt != Forwarding
  {
    var t := Answer(a, flow, activeSvc, lead, projectCount);
    if a.Discover? {
      assert forall q | q in Replies(t.say) :: Known(q) && !q.ChooseLeadService?;
    }
  }

  /**
   * The answer to an accepted entry (`handleSend` past its check): the
   * name and the email are stored and the next field is asked for; the
   * service is asked for only when neither the lead nor the conversation
   * has one; the message ends the flow and the bot confirms with the
   * first word of the name and the email.
   */
  function Reply(f: Flow, t: string, lead: Draft, activeSvc: Option<string>): (r: Turn)
    ensures r.activeSvc == activeSvc
    ensures f == LeadName ==> r.flow == LeadEmail && r.lead == lead.(name := Some(t))
    ensures f == LeadEmail ==> r.lead.name == lead.name && r.lead.email == Some(t)
    ensures f == LeadEmail ==> (r.flow == LeadService <==> lead.service.None? && activeSvc.None?)
    ensures f == LeadEmail && r.flow != LeadService ==> r.flow == LeadMessage && r.lead.service.Some?
    ensures f == LeadMessage ==> r.flow == LeadDone && r.lead == lead
    ensures !ShowInput(f) ==> r.flow == f && r.lead == lead
  {
    match f
    case LeadName =>
      Turn(LeadEmail, activeSvc, lead.(name := Some(t)), BotMsg(AskEmail(FirstWord(t)), [], false))
    case LeadEmail =>
      if lead.service.Some? || activeSvc.Some? then
        Turn(LeadMessage, activeSvc,
             lead.(email := Some(t), service := if lead.service.Some? then lead.service else activeSvc),
             BotMsg(AskMessage, [], false))
      else
        Turn(LeadService, activeSvc, lead.(email := Some(t)), BotMsg(AskService, ServiceReplies(true), false))
    case LeadMessage =>
      Turn(LeadDone, activeSvc, lead,
           BotMsg(Received(if lead.name.Some? then Some(FirstWord(lead.name.value)) else None, lead.email),
                  [Discover], false))
    case _ => Turn(f, activeSvc, lead, BotMsg(StillLearning, [Expert], false))
  }

  /** Whether an entry is accepted for the field the flow asks for. */
  predicate Accepted(f: Flow, t: string) {
    match f
    case LeadName => |t| >= 2
    case LeadEmail => EmailLike(t)
    case LeadMessage => |t| >= 20
    case _ => true
  }

  datatype InputError = NameTooShort | InvalidEmail | MessageTooShort(length: nat)

  /** The error shown for a refused entry. */
  function Rejection(f: Flow, t: string): InputError {
    match f
    case LeadName => NameTooShort
    case LeadEmail => InvalidEmail
    case _ => MessageTooShort(|t|)
  }

  /**
   * An accepted, trimmed entry keeps the lead in order, and the message
   * step only happens with a name and an email in the draft, so what it
   * sends is a complete chatbot submission.
   */
  lemma {:induction false} ReplyKeeps(f: Flow, t: string, lead: Draft, activeSvc: Option<string>)
    requires ShowInput(f) && Accepted(f, t) && Text.Trimmed(t)
    requires LeadOk(f, lead, activeSvc)
    ensures TurnOk(Reply(f, t, lead, activeSvc))
    ensures f == LeadMessage ==> Submittable(Request(lead, t))
    ensures lead.name.Some? ==> Reply(f, t, lead, activeSvc).lead.name.Some?
    ensures lead.email.Some? ==> Reply(f, t, lead, activeSvc).lead.email.Some?
  {
    var r := Reply(f, t, lead, activeSvc);
    if f == LeadEmail && r.flow == LeadService {
      assert forall q | q in Replies(r.say) :: Known(q) && q.ChooseLeadService?;
    }
  }

  // ---- the conversation -----------------------------------------------------

  predicate ScreenOk(msgs: seq<Msg>, pending: seq<Msg>, flow: Flow, lead: Draft) {
    && RepliesOk(msgs, lead) && RepliesOk(pending, lead)
    && (ShowInput(flow) ==> NoReplies(msgs) && NoReplies(pending))
  }

  predicate LeadOk(flow: Flow, lead: Draft, activeSvc: Option<string>) {
    && DraftOk(lead)
    && LeadSchema.ServiceOk(activeSvc)
    && (flow == LeadEmail ==> lead.name.Some?)
    && (flow == LeadService || flow == LeadMessage ==> lead.name.Some? && lead.email.Some?)
  }

  predicate SubmissionsOk(submissions: seq<LeadSchema.LeadRaw>) {
    forall r | r in submissions :: Submittable(r)
  }

  predicate TypingOk(msgs: seq<Msg>, pending: seq<Msg>, typing: bool) {
    && |pending| <= 1
    && (typing <==> pending != [])
    && (pending != [] ==> NoReplies(msgs))
  }

  /** The invariant of a conversation, on its state. */
  predicate StateOk(msgs: seq<Msg>, pending: seq<Msg>, flow: Flow, typing: bool, inited: bool,
                    activeSvc: Option<string>, lead: Draft, submissions: seq<LeadSchema.LeadRaw>) {
    && ScreenOk(msgs, pending, flow, lead)
    && LeadOk(flow, lead, activeSvc)
    && SubmissionsOk(submissions)
    && TypingOk(msgs, pending, typing)
    && (!inited ==> msgs == [] && pending == [] && flow == Welcome)
  }

  /**
   * A reply on screen can only be clicked while nothing is in flight and
   * after the greeting, and it is one the bot can answer.
   */
  lemma {:induction false} ClickedReplyOk(msgs: seq<Msg>, pending: seq<Msg>, flow: Flow, typing: bool, inited: bool,
                                         activeSvc: Option<string>, lead: Draft, submissions: seq<LeadSchema.LeadRaw>,
                                         m: Msg, a: Action)
    requires StateOk(msgs, pending, flow, typing, inited, activeSvc, lead, submissions)
    requires m in msgs && a in Replies(m)
    ensures pending == [] && !typing && inited && ReplyOk(a, lead)
  {
    assert !NoReplies(msgs) by {
      assert Replies(m) != [];
    }
  }

  /** The greeting, put in flight before anything is on screen, keeps the conversation well formed. */
  lemma {:induction false} GreetingKeeps(me: Option<Member>, typing: bool, activeSvc: Option<string>, lead: Draft,
                                         submissions: seq<LeadSchema.LeadRaw>)
    requires StateOk([], [], Welcome, typing, false, activeSvc, lead, submissions)
    ensures StateOk([], [Greeting(me)], Welcome, true, true, activeSvc, lead, submissions)
  {
    assert forall q | q in Replies(Greeting(me)) :: ReplyOk(q, lead);
  }

  class Conversation {
    var open: bool
    var msgs: seq<Msg>
    var pending: seq<Msg>
    var flow: Flow
    var typing: bool
    var inp: string
    var inpErr: Option<InputError>
    var inited: bool
    var activeSvc: Option<string>
    var lead: Draft
    var submissions: seq<LeadSchema.LeadRaw>

    /**
     * Every quick reply on screen or on its way is one the bot can
     * answer; no quick reply is offered while the text box is; the lead
     * flow only asks for the email once it has a name, and only asks
     * for the service or the message once it has both; so every
     * submission carries a name, an email and a long enough message.
     * At most one bot message is in flight, exactly while the typing
     * indicator shows, and no quick reply is clickable meanwhile.
     */
    predicate Valid()
      reads this
    {
      StateOk(msgs, pending, flow, typing, inited, activeSvc, lead, submissions)
    }

    constructor ()
      ensures Valid()
      ensures !open && msgs == [] && pending == [] && flow == Welcome && !typing
      ensures inp == "" && inpErr.None? && !inited && activeSvc.None?
      ensures lead == Draft(None, None, None) && submissions == []
    {
      open := false;
      msgs := [];
      pending := [];
      flow := Welcome;
      typing := false;
      inp := "";
      inpErr := None;
      inited := false;
      activeSvc := None;
      lead := Draft(None, None, None);
      submissions := [];
    }

    /** The launcher and close buttons. */
    method SetOpen(b: bool)
      requires Valid()
      modifies this
      ensures Valid()
      ensures open == b
      ensures msgs == old(msgs) && pending == old(pending) && flow == old(flow) && typing == old(typing)
      ensures inp == old(inp) && inpErr == old(inpErr) && inited == old(inited) && activeSvc == old(activeSvc)
      ensures lead == old(lead) && submissions == old(submissions)
    {
      open := b;
    }

    /** The input's `onChange`: the text changes and the error goes. */
    method SetInput(s: string)
      requires Valid()
      modifies this
      ensures Valid()
      ensures inp == s && inpErr.None?
      ensures open == old(open) && msgs == old(msgs) && pending == old(pending) && flow == old(flow)
      ensures typing == old(typing) && inited == old(inited) && activeSvc == old(activeSvc)
      ensures lead == old(lead) && submissions == old(submissions)
    {
      inp := s;
      inpErr := None;
    }

    /**
     * The opening effect and `initConv`: once the window is open and the
     * session is known, greet once.
     */
    method Init(me: Option<Member>, meLoading: bool)
      requires Valid()
      modifies this
      ensures Valid()
      ensures old(open) && !old(inited) && !meLoading ==>
        inited && typing && pending == [Greeting(me)]
      ensures !(old(open) && !old(inited) && !meLoading) ==>
        inited == old(inited) && typing == old(typing) && pending == old(pending)
      ensures open == old(open) && msgs == old(msgs) && flow == old(flow) && inp == old(inp) && inpErr == old(inpErr)
      ensures activeSvc == old(activeSvc) && lead == old(lead) && submissions == old(submissions)
    {
      if open && !inited && !meLoading {
        GreetingKeeps(me, typing, activeSvc, lead, submissions);
        inited := true;
        typing := true;
        pending := [Greeting(me)];
      }
    }

    /** The typing timer fires: the bot message in flight appears. */
    method Deliver()
      requires Valid() && pending != []
      modifies this
      ensures Valid()
      ensures msgs == old(msgs) + old(pending) && pending == [] && !typing
      ensures open == old(open) && flow == old(flow) && inp == old(inp) && inpErr == old(inpErr) && inited == old(inited)
      ensures activeSvc == old(activeSvc) && lead == old(lead) && submissions == old(submissions)
    {
      Concat(msgs, pending, lead);
      msgs := msgs + pending;
      pending := [];
      typing := false;
    }

    /** `clearQRs`: every quick reply on screen goes. */
    method ClearQRs()
      requires Valid()
      modifies this
      ensures Valid() && NoReplies(msgs)
      ensures msgs == ClearAll(old(msgs))
      ensures open == old(open) && pending == old(pending) && flow == old(flow) && typing == old(typing)
      ensures inp == old(inp) && inpErr == old(inpErr) && inited == old(inited) && activeSvc == old(activeSvc)
      ensures lead == old(lead) && submissions == old(submissions)
    {
      ClearAllEmpty(msgs);
      NoRepliesOk(ClearAll(msgs), lead);
      msgs := ClearAll(msgs);
    }

    /** `userSay`: the user's words are appended. */
    method UserSay(text: string)
      requires Valid() && inited
      modifies this
      ensures Valid()
      ensures msgs == old(msgs) + [UserMsg(text)]
      ensures NoReplies(old(msgs)) ==> NoReplies(msgs)
      ensures open == old(open) && pending == old(pending) && flow == old(flow) && typing == old(typing)
      ensures inp == old(inp) && inpErr == old(inpErr) && inited == old(inited) && activeSvc == old(activeSvc)
      ensures lead == old(lead) && submissions == old(submissions)
    {
      Concat(msgs, [UserMsg(text)], lead);
      msgs := msgs + [UserMsg(text)];
    }

    /** The lead is sent to `leads.create`. */
    method Submit(r: LeadSchema.LeadRaw)
      requires Valid() && Submittable(r)
      modifies this
      ensures Valid()
      ensures submissions == old(submissions) + [r]
      ensures open == old(open) && msgs == old(msgs) && pending == old(pending) && flow == old(flow)
      ensures typing == old(typing) && inp == old(inp) && inpErr == old(inpErr) && inited == old(inited)
      ensures activeSvc == old(activeSvc) && lead == old(lead)
    {
      submissions := submissions + [r];
    }

    /**
     * The bot takes its turn: the flow, the active service and the draft
     * move on and `botSay` puts the message in flight with the typing
     * indicator on. No reply may be on screen meanwhile.
     */
    method Respond(t: Turn)
      requires Valid() && inited && pending == [] && NoReplies(msgs) && TurnOk(t)
      modifies this
      ensures Valid()
      ensures flow == t.flow && activeSvc == t.activeSvc && lead == t.lead && pending == [t.say] && typing
      ensures open == old(open) && msgs == old(msgs) && inp == old(inp) && inpErr == old(inpErr)
      ensures inited == old(inited) && submissions == old(submissions)
    {
      NoRepliesOk(msgs, t.lead);
      flow := t.flow;
      activeSvc := t.activeSvc;
      lead := t.lead;
      pending := [t.say];
      typing := true;
    }

    /**
     * `handleAction` for a quick reply on screen: all quick replies go,
     * the reply's label is said, and the bot answers by action. The
     * default branch of the dispatch is never taken: every reply on
     * screen carries a known action.
     */
    method Action(value: string, shown: string, projectCount: Option<nat>)
      requires Valid() && exists m, a | m in msgs && a in Replies(m) :: Encode(a) == value
      modifies this
      ensures Valid()
      ensures Known(Decode(value)) && old(pending) == []
      ensures var t := Answer(Decode(value), old(flow), old(activeSvc), old(lead), projectCount);
        flow == t.flow && activeSvc == t.activeSvc && lead == t.lead && pending == [t.say] && typing
      ensures msgs == ClearAll(old(msgs)) + [UserMsg(shown)]
      ensures open == old(open) && inp == old(inp) && inpErr == old(inpErr) && inited == old(inited)
      ensures submissions == old(submissions)
    {
      var m, a :| m in msgs && a in Replies(m) && Encode(a) == value;
      DecodeEncode(a);
      assert Decode(value) == a;
      ClickedReplyOk(msgs, pending, flow, typing, inited, activeSvc, lead, submissions, m, a);
      AnswerKeeps(a, flow, activeSvc, lead, projectCount);
      ClearQRs();
      UserSay(shown);
      Respond(Answer(a, flow, activeSvc, lead, projectCount));
    }

    /**
     * `handleSend` from the text box (shown only in the three lead
     * flows): a blank entry, or one made while the bot is typing, does
     * nothing; otherwise the trimmed entry is checked against the field
     * being asked for, and either kept in the box with an error or said
     * and answered. The message completes the lead, which is sent
     * whatever the outcome.
     */
    method Send()
      requires Valid() && ShowInput(flow)
      modifies this
      ensures Valid()
      ensures open == old(open) && inited == old(inited)
      ensures var t := Text.Trim(old(inp));
        (t == "" || old(typing)) ==>
          && inp == old(inp) && inpErr == old(inpErr) && msgs == old(msgs) && pending == old(pending)
          && flow == old(flow) && typing == old(typing) && activeSvc == old(activeSvc) && lead == old(lead)
          && submissions == old(submissions)
      ensures var t := Text.Trim(old(inp));
        !(t == "" || old(typing)) && !Accepted(old(flow), t) ==>
          && inp == t && inpErr == Some(Rejection(old(flow), t)) && msgs == old(msgs) && pending == old(pending)
          && flow == old(flow) && typing == old(typing) && activeSvc == old(activeSvc) && lead == old(lead)
          && submissions == old(submissions)
      ensures var t := Text.Trim(old(inp));
        !(t == "" || old(typing)) && Accepted(old(flow), t) ==>
          var r := Reply(old(flow), t, old(lead), old(activeSvc));
          && inp == "" && inpErr.None? && msgs == old(msgs) + [UserMsg(t)] && typing
          && flow == r.flow && activeSvc == r.activeSvc && lead == r.lead && pending == [r.say]
          && submissions == old(submissions) + (if old(flow) == LeadMessage then [Request(old(lead), t)] else [])
    {
      var text := Text.Trim(inp);
      if text == "" || typing {
        return;
      }
      if !Accepted(flow, text) {
        Reject(text);
      } else {
        Text.TrimmedIffFixed(inp);
        Take(text);
      }
    }

    /** A refused entry stays in the box, trimmed, with the field's error under it. */
    method Reject(text: string)
      requires Valid() && !Accepted(flow, text)
      modifies this
      ensures Valid()
      ensures inp == text && inpErr == Some(Rejection(old(flow), text))
      ensures msgs == old(msgs) && pending == old(pending) && flow == old(flow) && typing == old(typing)
      ensures activeSvc == old(activeSvc) && lead == old(lead) && submissions == old(submissions)
      ensures open == old(open) && inited == old(inited)
    {
      inpErr := Some(Rejection(flow, text));
      inp := text;
    }

    /**
     * An accepted entry: the box empties, the entry is said, the bot
     * answers and, for the message, the lead goes out first.
     */
    method Take(text: string)
      requires Valid() && ShowInput(flow) && !typing && Accepted(flow, text) && Text.Trimmed(text)
      modifies this
      ensures Valid()
      ensures var r := Reply(old(flow), text, old(lead), old(activeSvc));
        && inp == "" && inpErr.None? && msgs == old(msgs) + [UserMsg(text)] && typing
        && flow == r.flow && activeSvc == r.activeSvc && lead == r.lead && pending == [r.say]
      ensures submissions == old(submissions) + (if old(flow) == LeadMessage then [Request(old(lead), text)] else [])
      ensures open == old(open) && inited == old(inited)
    {
      var r := Reply(flow, text, lead, activeSvc);
      ReplyKeeps(flow, text, lead, activeSvc);
      if flow == LeadMessage {
        Submit(Request(lead, text));
      }
      inpErr := None;
      inp := "";
      UserSay(text);
      Respond(r);
    }
  }

  // ---- project cards in the conversation ------------------------------------

  /** The deadline label of a project card in the chat. */
  datatype DueLabel = NoDate | Overdue | Tomorrow | InDays(days: nat)

  /** The colour of that label. */
  datatype CardTone = AmberTone | GreenTone | GreyTone

  datatype Summary = Summary(done: nat, total: nat, pct: nat, due: DueLabel, tone: CardTone)

  /**
   * `projectCards`: done and total tasks, the rounded percentage, and a
   * deadline label that reads "overdue" from the end date on, "tomorrow"
   * within the last day before it and a day count earlier; amber when
   * the end is at most a week away (or past), green when complete.
   */
  function Summarize(p: ProjectCard.CardData, now: int): (s: Summary)
    ensures s.done == ProjectCard.DoneCount(p.tasks) && s.total == |p.tasks|
    ensures s.pct == ProjectCard.ProgressPct(p.tasks) && s.pct <= 100
    ensures s.due == NoDate <==> p.endDate.None?
    ensures s.due == Overdue <==> p.endDate.Some? && p.endDate.value <= now
    ensures s.due == Tomorrow <==> p.endDate.Some? && now < p.endDate.value <= now + ProjectCard.DAY_MS
    ensures s.due.InDays? ==> 2 <= s.due.days
    ensures s.due.InDays? ==>
              ProjectCard.DAY_MS * (s.due.days - 1) < p.endDate.value - now <= ProjectCard.DAY_MS * s.due.days
    ensures s.tone == AmberTone <==> p.endDate.Some? && p.endDate.value - now <= 7 * ProjectCard.DAY_MS
    ensures s.tone == GreenTone <==> s.tone != AmberTone && s.pct == 100
  {
    var daysLeft := ProjectCard.DaysLeft(p.endDate, now);
    ProjectCard.ProgressBounds(p.tasks);
    UrgentWithinWeek(if p.endDate.Some? then p.endDate.value else now, now);
    var urgent := daysLeft.Some? && daysLeft.value <= 7;
    var pct := ProjectCard.ProgressPct(p.tasks);
    var due :=
      if daysLeft.None? then NoDate
      else if daysLeft.value <= 0 then Overdue
      else if daysLeft.value == 1 then Tomorrow
      else InDays(daysLeft.value);
    var tone := if urgent then AmberTone else if pct == 100 then GreenTone else GreyTone;
    Summary(ProjectCard.DoneCount(p.tasks), |p.tasks|, pct, due, tone)
  }

  /** A project whose every task is done, with no end date, is shown green. */
  lemma CompleteShowsGreen(p: ProjectCard.CardData, now: int)
    requires p.tasks != [] && p.endDate.None?
    requires forall t | t in p.tasks :: t.status == "DONE"
    ensures Summarize(p, now).tone == GreenTone
    ensures Summarize(p, now).done == Summarize(p, now).total
  {
    ProjectCard.ProgressBounds(p.tasks);
  }

  /** The ceiling of the remaining days against the end date: at most one day, at most seven. */
  lemma {:induction false} UrgentWithinWeek(end: int, now: int)
    ensures ProjectCard.DaysLeft(Some(end), now).value <= 0 <==> end <= now
    ensures ProjectCard.DaysLeft(Some(end), now).value == 1 <==> now < end <= now + ProjectCard.DAY_MS
    ensures ProjectCard.DaysLeft(Some(end), now).value <= 7 <==> end - now <= 7 * ProjectCard.DAY_MS
  {
    var r := ProjectCard.DaysLeft(Some(end), now).value;
    ProjectCard.DaysLeftSign(end, now);
    if r <= 1 {
      assert ProjectCard.DAY_MS * r <= ProjectCard.DAY_MS * 1;
    } else {
      assert ProjectCard.DAY_MS * (r - 1) >= ProjectCard.DAY_MS * 1;
    }
    if r <= 7 {
      assert ProjectCard.DAY_MS * r <= ProjectCard.DAY_MS * 7;
    } else {
      assert ProjectCard.DAY_MS * (r - 1) >= ProjectCard.DAY_MS * 7;
    }
  }

  /**
   * The chat and the dashboard disagree for the first day after the end
   * date: the chat already reads "overdue" while the dashboard card's
   * badge is amber and not overdue, counting zero days.
   */
  lemma OverdueBeforeTheCard(p: ProjectCard.CardData, now: int)
    requires p.endDate.Some? && p.status != "COMPLETED"
    requires now - ProjectCard.DAY_MS < p.endDate.value <= now
    ensures Summarize(p, now).due == Overdue
    ensures ProjectCard.RemainingBadge(ProjectCard.DaysLeft(p.endDate, now), p.status) ==
            Some(ProjectCard.Badge(ProjectCard.Amber, 0, false))
  {
    ProjectCard.DaysLeftSign(p.endDate.value, now);
  }
}
