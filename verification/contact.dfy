/** The single-step contact form: a lead record, its submission status, the
    reset that follows a successful send, and the "Send another" button. */
module Contact {
  import opened Wrappers
  import opened Seqs
  import opened Json
  import opened Submission

  /** The options of the enquiry-type select. */
  const EnquiryTypes: seq<string> :=
    ["Property management enquiry", "Tenant finding", "Maintenance issue", "General question"]

  datatype Lead = Lead(name: string, email: string, phone: string, enquiryType: string, message: string)

  /** The form on mount and after every successful send. */
  const Blank: Lead := Lead("", "", "", "Property management enquiry", "")

  datatype State = State(status: Status, form: Lead)

  const Start: State := State(Idle, Blank)

  /** One user action or one settled request. The form's inputs (name, email,
      enquiry type, message; there is no phone input) are rendered in every
      view but the success view, which renders only "Send another". */
  datatype Event =
    | EditName(text: string)
    | EditEmail(text: string)
    | SelectEnquiryType(t: string)
    | EditMessage(text: string)
    | Submit
    | Respond(r: Response)
    | SendAnother

  /** The state after an event, and the body of the POST it sends, if any. */
  datatype Transition = Transition(state: State, request: Option<Json>)

  /** The tag naming the submission channel. */
  const Source: string := "contact-form"

  /** The keys of the submitted record: the form's five fields, then the tags. */
  const PayloadKeys: seq<string> :=
    ["name", "email", "phone", "enquiry_type", "message", "site", "source"]

  function PayloadFields(f: Lead): map<string, Json> {
    map[
      "name" := JStr(f.name),
      "email" := JStr(f.email),
      "phone" := JStr(f.phone),
      "enquiry_type" := JStr(f.enquiryType),
      "message" := JStr(f.message),
      "site" := JStr(Site),
      "source" := JStr(Source)]
  }

  /** The body of the POST: the form spread, then the two constant tags. */
  function Payload(f: Lead): (p: Json)
    ensures p.JObj? && p.keys == PayloadKeys
    ensures GetStr(p, "site") == Some(Site)
    ensures GetStr(p, "source") == Some(Source)
    ensures GetStr(p, "name") == Some(f.name)
    ensures GetStr(p, "email") == Some(f.email)
    ensures GetStr(p, "phone") == Some(f.phone)
    ensures GetStr(p, "enquiry_type") == Some(f.enquiryType)
    ensures GetStr(p, "message") == Some(f.message)
  {
    JObj(PayloadKeys, PayloadFields(f))
  }

  /** Reads a lead back out of a request body. */
  function ReadLead(p: Json): Option<Lead> {
    match (GetStr(p, "name"), GetStr(p, "email"), GetStr(p, "phone"),
           GetStr(p, "enquiry_type"), GetStr(p, "message"))
    case (Some(n), Some(e), Some(ph), Some(t), Some(m)) => Some(Lead(n, e, ph, t, m))
    case _ => None
  }

  /** The body names each of its keys exactly once. */
  lemma PayloadWellFormed(f: Lead)
    ensures WellFormedObject(Payload(f))
  {
    assert Distinct(PayloadKeys);
    assert PayloadFields(f).Keys == (set k | k in PayloadKeys);
  }

  /** No field is dropped or renamed: the lead reads back out of the body
      unchanged. */
  lemma PayloadRoundTrip(f: Lead)
    ensures ReadLead(Payload(f)) == Some(f)
  {
  }

  /** Edits of the form, available outside the success view. Each control
      changes only the field it is bound to, and the enquiry type only ever
      takes an offered value. */
  function Edit(f: Lead, e: Event): (r: Lead)
    requires e.EditName? || e.EditEmail? || e.SelectEnquiryType? || e.EditMessage?
    ensures r.name != f.name ==> e.EditName?
    ensures r.email != f.email ==> e.EditEmail?
    ensures r.phone == f.phone
    ensures r.enquiryType != f.enquiryType ==> e.SelectEnquiryType? && r.enquiryType in EnquiryTypes
    ensures r.message != f.message ==> e.EditMessage?
    // each control stores what it carries in its own field
    ensures e.EditName? ==> r == f.(name := e.text)
    ensures e.EditEmail? ==> r == f.(email := e.text)
    ensures e.SelectEnquiryType? ==> r == (if e.t in EnquiryTypes then f.(enquiryType := e.t) else f)
    ensures e.EditMessage? ==> r == f.(message := e.text)
  {
    match e
    case EditName(text) => f.(name := text)
    case EditEmail(text) => f.(email := text)
    case SelectEnquiryType(t) => if t in EnquiryTypes then f.(enquiryType := t) else f
    case EditMessage(text) => f.(message := text)
  }

  /** The contact form's transition function. Only a submit sends a request;
      the status changes only by a submit, a settled request or "Send another";
      and the form changes only by an edit outside the success view or by the
      reset a 2xx response triggers. */
  function Next(s: State, e: Event): (t: Transition)
    ensures t.request.Some? <==> e == Submit && CanSubmit(s.status)
    ensures t.request.Some? ==> t.request.value == Payload(s.form) && t.state == s.(status := Sending)
    ensures t.state.status != s.status ==>
      (e == Submit && t.state.status == Sending)
      || (e.Respond? && s.status == Sending && t.state.status == Settle(e.r))
      || (e == SendAnother && s.status == Success && t.state.status == Idle)
    ensures t.state.form != s.form ==>
      (s.status != Success && t.state.status == s.status
        && (e.EditName? || e.EditEmail? || e.SelectEnquiryType? || e.EditMessage?))
      || (e == Respond(Ok) && s.status == Sending && t.state.form == Blank)
    ensures s.status == Success && e != SendAnother ==> t.state == s
  {
    if s.status == Success then
      if e == SendAnother then Transition(s.(status := Idle), None) else Transition(s, None)
    else
      match e
      case Submit =>
        if CanSubmit(s.status) then Transition(s.(status := Sending), Some(Payload(s.form)))
        else Transition(s, None)
      case Respond(r) =>
        if s.status != Sending then Transition(s, None)
        else if r == Ok then Transition(State(Success, Blank), None)
        else Transition(s.(status := Error), None)
      case SendAnother => Transition(s, None)
      case _ => Transition(s.(form := Edit(s.form, e)), None)
  }

  /** The state reached from `s` by a sequence of events. */
  function Run(s: State, events: seq<Event>): State
    decreases |events|
  {
    if |events| == 0 then s else Run(Next(s, events[0]).state, events[1..])
  }

  /** What holds of every state the form can reach from `Start`: the enquiry
      type is one the select offers, the phone stays empty because no input
      edits it, and the success view always sits on a blank form. */
  predicate Invariant(s: State) {
    && s.form.enquiryType in EnquiryTypes
    && s.form.phone == ""
    && (s.status == Success ==> s.form == Blank)
  }

  lemma StartInvariant()
    ensures Invariant(Start)
    ensures Start.status == Idle
    ensures Start.form.name == "" && Start.form.email == "" && Start.form.phone == ""
    ensures Start.form.message == "" && Start.form.enquiryType == "Property management enquiry"
  {
  }

  lemma NextKeepsInvariant(s: State, e: Event)
    requires Invariant(s)
    ensures Invariant(Next(s, e).state)
  {
  }

  lemma {:induction false} RunKeepsInvariant(s: State, events: seq<Event>)
    requires Invariant(s)
    ensures Invariant(Run(s, events))
    decreases |events|
  {
    if |events| > 0 {
      NextKeepsInvariant(s, events[0]);
      RunKeepsInvariant(Next(s, events[0]).state, events[1..]);
    }
  }

  /** Every reachable state satisfies the invariant, so every request the
      form sends carries an offered enquiry type and an empty phone. */
  lemma Reachable(events: seq<Event>)
    ensures Invariant(Run(Start, events))
  {
    StartInvariant();
    RunKeepsInvariant(Start, events);
  }

  /** A submit sends exactly one request carrying the current form, and only
      while the button is enabled; while sending it does nothing. */
  lemma SubmitSends(s: State)
    ensures Next(s, Submit).request.Some? <==> CanSubmit(s.status)
    ensures CanSubmit(s.status) ==>
      Next(s, Submit) == Transition(s.(status := Sending), Some(Payload(s.form)))
    ensures s.status == Sending ==> Next(s, Submit) == Transition(s, None)
  {
  }

  /** Only a submit ever sends a request. */
  lemma OnlySubmitSends(s: State, e: Event)
    requires Next(s, e).request.Some?
    ensures e == Submit
  {
  }

  /** A 2xx response shows success and clears the form back to its defaults;
      any failure shows the error and keeps what was typed. */
  lemma RespondSettles(s: State, r: Response)
    requires s.status == Sending
    ensures Next(s, Respond(r)).state.status == Settle(r)
    ensures r == Ok ==> Next(s, Respond(r)).state.form == Blank
    ensures r != Ok ==> Next(s, Respond(r)).state.form == s.form
  {
  }

  /** What was last typed is what a submit sends: typing a name, then
      submitting from idle or error, sends that name with the other fields
      as they were. */
  lemma TypedThenSent(s: State, name: string)
    requires CanSubmit(s.status)
    ensures var t := Next(Next(s, EditName(name)).state, Submit);
      && t.request == Some(Payload(s.form.(name := name)))
      && GetStr(t.request.value, "name") == Some(name)
  {
  }

  /** "Send another" leaves the success view for a fresh idle form and changes
      nothing else; it is the only way out of success. */
  lemma SendAnotherResets(s: State, e: Event)
    requires s.status == Success
    ensures Next(s, SendAnother).state == s.(status := Idle)
    ensures e != SendAnother ==> Next(s, e).state == s
  {
  }

  /** After a successful send and "Send another", the form is exactly the
      form at mount. */
  lemma SuccessThenSendAnother(s: State)
    requires s.status == Sending
    ensures Run(s, [Respond(Ok), SendAnother]) == Start
  {
  }
}
