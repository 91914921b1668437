/**
 * The landing page's contact form (src/components/landing/Contact.tsx): the
 * client-side `contactSchema`, the submission sent to `leads.create`, and the
 * form's state — the success panel, the field errors, the pending request
 * and the request error. The browser form hands every field over as a
 * string (an untouched input is the empty string, the service select starts
 * on the empty placeholder option).
 */
module Contact {
  import opened Common
  import LeadSchema

  /** The component's own copy of the service keys. */
  const SERVICE_KEYS: seq<string> := [
    "rpa", "agents", "saas", "web", "medical",
    "agriculture", "education", "energy", "construction", "consulting"]

  datatype ContactValues = ContactValues(
    name: string, email: string, phone: string, company: string, service: string, message: string)

  /** What `reset()` leaves in the fields. */
  const EMPTY: ContactValues := ContactValues("", "", "", "", "", "")

  /** `contactSchema`: the fields it rejects, in form order. */
  function FormIssues(lib: Lib, v: ContactValues): (r: seq<string>)
    ensures r == [] <==> 2 <= |v.name| && lib.isEmail(v.email) && v.service in SERVICE_KEYS && 10 <= |v.message|
    ensures "name" in r <==> |v.name| < 2
    ensures "message" in r <==> |v.message| < 10
    ensures "service" in r <==> v.service !in SERVICE_KEYS
  {
    (if |v.name| < 2 then ["name"] else [])
    + (if !lib.isEmail(v.email) then ["email"] else [])
    + (if v.service !in SERVICE_KEYS then ["service"] else [])
    + (if |v.message| < 10 then ["message"] else [])
  }

  /** `{ ...data, source: "contact_form" }`, the input of `leads.create`. */
  function Submission(v: ContactValues): (r: LeadSchema.LeadRaw)
    ensures r.source == Some(LeadSchema.SourceName(LeadSchema.ContactForm))
    ensures r.name == Some(v.name) && r.email == Some(v.email) && r.message == Some(v.message)
    ensures r.phone == Some(v.phone) && r.company == Some(v.company) && r.service == Some(v.service)
  {
    LeadSchema.LeadRaw(Some(v.name), Some(v.email), Some(v.phone), Some(v.company),
                       Some(v.message), Some(v.service), Some("contact_form"))
  }

  /** The form values a submission carries: `Submission` read backwards. */
  function Sent(r: LeadSchema.LeadRaw): ContactValues {
    ContactValues(Get(r.name), Get(r.email), Get(r.phone), Get(r.company), Get(r.service), Get(r.message))
  }

  function Get(o: Option<string>): string {
    if o.Some? then o.value else ""
  }

  /** Reading a submission back gives the values it was made from, and only contact-form submissions read back to themselves. */
  lemma SentSubmission(v: ContactValues, r: LeadSchema.LeadRaw)
    ensures Sent(Submission(v)) == v
    ensures Submission(Sent(r)) == r <==> (
      && r.source == Some("contact_form") && r.name.Some? && r.email.Some?
      && r.phone.Some? && r.company.Some? && r.service.Some? && r.message.Some?)
  {
  }

  /** The component's keys are the lead schema's keys. */
  lemma KeysAgree()
    ensures SERVICE_KEYS == LeadSchema.SERVICE_KEYS
  {
  }

  /**
   * What the form lets through, the server takes — provided the message has
   * the server's 20 characters, the name at most 200, and the optional
   * fields meet the server's phone pattern and company length.
   */
  lemma {:induction false} ServerAccepts(lib: Lib, v: ContactValues)
    requires FormIssues(lib, v) == []
    requires 20 <= |v.message| <= 5000 && |v.name| <= 200
    requires LeadSchema.PhoneOk(Some(v.phone)) && LeadSchema.CompanyOk(Some(v.company))
    ensures LeadSchema.ParseLead(lib, Submission(v)).Ok?
    ensures LeadSchema.ParseLead(lib, Submission(v)).value.source == LeadSchema.ContactForm
  {
    KeysAgree();
    assert LeadSchema.ParseSource("contact_form") == Some(LeadSchema.ContactForm);
    assert LeadSchema.LeadIssues(lib, Submission(v)) == [];
  }

  /**
   * The client asks for 10 characters of message and the server for 20: a
   * message of 10 to 19 characters passes the form and is refused by
   * `leads.create`, which the form shows only as its generic error.
   */
  lemma {:induction false} ShortMessageRefused(lib: Lib, v: ContactValues)
    requires FormIssues(lib, v) == [] && |v.message| < 20
    ensures 10 <= |v.message|
    ensures "message" in LeadSchema.LeadIssues(lib, Submission(v))
    ensures LeadSchema.ParseLead(lib, Submission(v)).Err?
  {
    var issues := LeadSchema.LeadIssues(lib, Submission(v));
    var tail := (if !LeadSchema.ServiceOk(Some(v.service)) then ["service"] else [])
      + (if LeadSchema.ParseSource("contact_form").None? then ["source"] else []);
    assert issues[|issues| - |tail| - 1] == "message";
  }

  /** The contact form component. */
  class ContactForm {
    /** The email check `contactSchema` and the server share. */
    const lib: Lib
    /** `isSuccess`: the thank-you panel replaces the form. */
    var isSuccess: bool
    var values: ContactValues
    /** The fields whose error message shows. */
    var errors: seq<string>
    /** Whether the form was submitted since the last reset (errors then follow each edit). */
    var submitted: bool
    /** `createLead.isPending`: the submit button is disabled. */
    var pending: bool
    /** `createLead.isError`: the generic error banner shows. */
    var failed: bool
    /** The requests sent to `leads.create`, in order. */
    var sent: seq<LeadSchema.LeadRaw>

    /** Only requests that passed the form go out, and the panel and a pending request exclude each other. */
    predicate Valid()
      reads this
    {
      && !(isSuccess && pending)
      && (pending ==> sent != [])
      && forall r | r in sent :: r == Submission(Sent(r)) && FormIssues(lib, Sent(r)) == []
    }

    constructor (lib: Lib)
      ensures Valid()
      ensures this.lib == lib && !isSuccess && values == EMPTY && errors == [] && !submitted
      ensures !pending && !failed && sent == []
    {
      this.lib := lib;
      isSuccess, values, errors, submitted := false, EMPTY, [], false;
      pending, failed, sent := false, false, [];
    }

    /** Typing into the fields; once submitted, the errors follow the values. */
    method Edit(v: ContactValues)
      requires Valid() && !isSuccess
      modifies this
      ensures Valid()
      ensures values == v
      ensures errors == if submitted then FormIssues(lib, v) else old(errors)
      ensures isSuccess == old(isSuccess) && submitted == old(submitted) && pending == old(pending)
      ensures failed == old(failed) && sent == old(sent)
    {
      values := v;
      if submitted {
        errors := FormIssues(lib, v);
      }
    }

    /**
     * `handleSubmit(onSubmit)`: invalid values only show their errors;
     * valid ones are sent with the contact-form source and the request
     * becomes pending.
     */
    method Submit()
      requires Valid() && !isSuccess && !pending
      modifies this
      ensures Valid()
      ensures submitted && errors == FormIssues(lib, values) && values == old(values) && !isSuccess
      ensures errors != [] ==> !pending && sent == old(sent) && failed == old(failed)
      ensures errors == [] ==> pending && !failed && sent == old(sent) + [Submission(values)]
    {
      submitted := true;
      errors := FormIssues(lib, values);
      if errors == [] {
        sent := sent + [Submission(values)];
        pending, failed := true, false;
      }
    }

    /** The request settles: on success the thank-you panel shows and the form resets; otherwise the error banner shows. */
    method Settle(ok: bool)
      requires Valid() && pending
      modifies this
      ensures Valid()
      ensures !pending && sent == old(sent)
      ensures ok ==> isSuccess && values == EMPTY && errors == [] && !submitted && failed == old(failed)
      ensures !ok ==> failed && !isSuccess && values == old(values) && errors == old(errors) && submitted == old(submitted)
    {
      pending := false;
      if ok {
        isSuccess := true;
        values, errors, submitted := EMPTY, [], false;
      } else {
        failed := true;
      }
    }

    /** "Send another message": back to the (reset) form. */
    method SendAnother()
      requires Valid() && isSuccess
      modifies this
      ensures Valid()
      ensures !isSuccess && values == old(values) && errors == old(errors) && submitted == old(submitted)
      ensures pending == old(pending) && failed == old(failed) && sent == old(sent)
    {
      isSuccess := false;
    }
  }
}
