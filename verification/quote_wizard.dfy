/** The three-step quote wizard: which step is shown, the submission status,
    and the form record, driven by the controls each view renders. The
    awaited POST of a submit is split into a `Submit` event, which sends the
    request, and a later `Respond` event, which reports how it settled. */
module QuoteWizard {
  import opened Wrappers
  import opened Seqs
  import opened Json
  import opened Submission
  import opened QuoteForm

  /** 1 = property details, 2 = services, 3 = contact details. */
  type StepNo = n: int | 1 <= n <= 3 witness 1

  datatype State = State(step: StepNo, status: Status, form: Form)

  const Start: State := State(1, Idle, QuoteForm.Initial)

  /** One user action or one settled request. A control that the current view
      does not render cannot be used, so its event leaves the state alone. */
  datatype Event =
    | SelectPropertyType(t: string)   // step 1 buttons
    | EditNumProperties(text: string) // step 1 number input
    | SelectArea(area: string)        // step 1 select
    | EditEstimatedRent(text: string) // step 1 number input
    | ToggleService(s: string)        // step 2 buttons
    | SelectSituation(c: string)      // step 2 select
    | EditName(text: string)          // step 3 inputs
    | EditEmail(text: string)
    | EditPhone(text: string)
    | EditMessage(text: string)
    | Continue                        // step 1 and step 2
    | Back                            // step 2 and step 3
    | Submit                          // step 3 submit button
    | Respond(r: Response)            // the awaited POST settles

  /** The state after an event, and the body of the POST it sends, if any. */
  datatype Transition = Transition(state: State, request: Option<Json>)

  function Stay(s: State): Transition {
    Transition(s, None)
  }

  /** Edits of the form that the view at `s.step` offers. Each view edits
      only its own fields, selections only ever take an offered value, and the
      service list changes only by toggling an offered service. */
  function Edit(s: State, e: Event): (r: State)
    requires !e.Continue? && !e.Back? && !e.Submit? && !e.Respond?
    ensures r.step == s.step && r.status == s.status
    ensures s.step != 1 ==>
      && r.form.propertyType == s.form.propertyType && r.form.numProperties == s.form.numProperties
      && r.form.area == s.form.area && r.form.estimatedRent == s.form.estimatedRent
    ensures s.step != 2 ==>
      r.form.servicesNeeded == s.form.servicesNeeded && r.form.currentSituation == s.form.currentSituation
    ensures s.step != 3 ==>
      && r.form.name == s.form.name && r.form.email == s.form.email
      && r.form.phone == s.form.phone && r.form.message == s.form.message
    ensures r.form.propertyType == s.form.propertyType || r.form.propertyType in PropertyTypes
    ensures r.form.area == s.form.area || r.form.area in AreaOptions
    ensures r.form.currentSituation == s.form.currentSituation || r.form.currentSituation in SituationOptions
    ensures r.form.servicesNeeded == s.form.servicesNeeded
      || (e.ToggleService? && e.s in Services && r.form.servicesNeeded == Toggle(s.form.servicesNeeded, e.s))
    // each control stores what it carries in its own field, on its own step
    ensures e.SelectPropertyType? ==>
      r.form == (if s.step == 1 && e.t in PropertyTypes then s.form.(propertyType := e.t) else s.form)
    ensures e.EditNumProperties? ==>
      r.form == (if s.step == 1 then s.form.(numProperties := e.text) else s.form)
    ensures e.SelectArea? ==>
      r.form == (if s.step == 1 && e.area in AreaOptions then s.form.(area := e.area) else s.form)
    ensures e.EditEstimatedRent? ==>
      r.form == (if s.step == 1 then s.form.(estimatedRent := e.text) else s.form)
    ensures e.ToggleService? ==>
      r.form == (if s.step == 2 && e.s in Services
                 then s.form.(servicesNeeded := Toggle(s.form.servicesNeeded, e.s)) else s.form)
    ensures e.SelectSituation? ==>
      r.form == (if s.step == 2 && e.c in SituationOptions then s.form.(currentSituation := e.c) else s.form)
    ensures e.EditName? ==> r.form == (if s.step == 3 then s.form.(name := e.text) else s.form)
    ensures e.EditEmail? ==> r.form == (if s.step == 3 then s.form.(email := e.text) else s.form)
    ensures e.EditPhone? ==> r.form == (if s.step == 3 then s.form.(phone := e.text) else s.form)
    ensures e.EditMessage? ==> r.form == (if s.step == 3 then s.form.(message := e.text) else s.form)
  {
    var f := s.form;
    match e
    case SelectPropertyType(t) =>
      if s.step == 1 && t in PropertyTypes then s.(form := f.(propertyType := t)) else s
    case EditNumProperties(text) =>
      if s.step == 1 then s.(form := f.(numProperties := text)) else s
    case SelectArea(a) =>
      if s.step == 1 && a in AreaOptions then s.(form := f.(area := a)) else s
    case EditEstimatedRent(text) =>
      if s.step == 1 then s.(form := f.(estimatedRent := text)) else s
    case ToggleService(x) =>
      if s.step == 2 && x in Services then s.(form := f.(servicesNeeded := Toggle(f.servicesNeeded, x))) else s
    case SelectSituation(c) =>
      if s.step == 2 && c in SituationOptions then s.(form := f.(currentSituation := c)) else s
    case EditName(text) =>
      if s.step == 3 then s.(form := f.(name := text)) else s
    case EditEmail(text) =>
      if s.step == 3 then s.(form := f.(email := text)) else s
    case EditPhone(text) =>
      if s.step == 3 then s.(form := f.(phone := text)) else s
    case EditMessage(text) =>
      if s.step == 3 then s.(form := f.(message := text)) else s
  }

  /** The wizard's transition function. The success view renders no control;
      only a submit sends a request; only Continue and Back move between
      steps, one step at a time; only a submit or a settled request changes
      the status; and an edit changes nothing but the form. */
  function Next(s: State, e: Event): (t: Transition)
    ensures s.status == Success ==> t == Stay(s)
    ensures t.request.Some? <==> e == Submit && s.step == 3 && CanSubmit(s.status)
    ensures t.request.Some? ==> t.request.value == Payload(s.form) && t.state == s.(status := Sending)
    ensures t.state.step != s.step ==>
      (e == Continue && t.state.step == s.step + 1) || (e == Back && t.state.step == s.step - 1)
    ensures t.state.status != s.status ==>
      (e == Submit && t.state.status == Sending)
      || (e.Respond? && s.status == Sending && t.state.status == Settle(e.r))
    ensures t.state.form != s.form ==> t.state.step == s.step && t.state.status == s.status
  {
    if s.status == Success then Stay(s)
    else
      match e
      case Continue =>
        if s.step == 1 && s.form.propertyType != "" then Stay(s.(step := 2))
        else if s.step == 2 && |s.form.servicesNeeded| != 0 then Stay(s.(step := 3))
        else Stay(s)
      case Back =>
        if s.step == 2 then Stay(s.(step := 1))
        else if s.step == 3 then Stay(s.(step := 2))
        else Stay(s)
      case Submit =>
        if s.step == 3 && CanSubmit(s.status) then Transition(s.(status := Sending), Some(Payload(s.form)))
        else Stay(s)
      case Respond(r) =>
        if s.status == Sending then Stay(s.(status := Settle(r))) else Stay(s)
      case _ => Stay(Edit(s, e))
  }

  /** The state reached from `s` by a sequence of events. */
  function Run(s: State, events: seq<Event>): State
    decreases |events|
  {
    if |events| == 0 then s else Run(Next(s, events[0]).state, events[1..])
  }

  /** What holds of every state the wizard can reach from `Start`. */
  predicate Invariant(s: State) {
    && (s.form.propertyType == "" || s.form.propertyType in PropertyTypes)
    && (s.step >= 2 ==> s.form.propertyType in PropertyTypes)
    && (s.step == 3 ==> |s.form.servicesNeeded| != 0)
    && Distinct(s.form.servicesNeeded)
    && AllIn(s.form.servicesNeeded, Services)
  }

  lemma StartInvariant()
    ensures Invariant(Start)
    ensures Start.step == 1 && Start.status == Idle
    ensures Start.form.servicesNeeded == [] && Start.form.numProperties == "1"
  {
  }

  /** Every event keeps the invariant. */
  lemma NextKeepsInvariant(s: State, e: Event)
    requires Invariant(s)
    ensures Invariant(Next(s, e).state)
  {
    if s.status != Success && e.ToggleService? && s.step == 2 && e.s in Services {
      var l := s.form.servicesNeeded;
      ToggleKeepsDistinct(l, e.s);
      var r := Toggle(l, e.s);
      forall i | 0 <= i < |r|
        ensures r[i] in Services
      {
        assert r[i] in multiset(r);
        if r[i] != e.s {
          assert multiset(r)[r[i]] == multiset(l)[r[i]];
          assert r[i] in multiset(l);
          assert r[i] in l;
        }
      }
    }
  }

  /** The reachable-state invariant: past step 1 a property type from the
      offered list is chosen; on step 3 at least one service is; and the
      service list never holds a duplicate or an unoffered service. */
  lemma {:induction false} RunKeepsInvariant(s: State, events: seq<Event>)
    requires Invariant(s)
    ensures Invariant(Run(s, events))
    decreases |events|
  {
    if |events| > 0 {
      NextKeepsInvariant(s, events[0]);
      RunKeepsInvariant(Next(s, events[0]).state, events[1..]);
    }
  }

  lemma Reachable(events: seq<Event>)
    ensures Invariant(Run(Start, events))
  {
    StartInvariant();
    RunKeepsInvariant(Start, events);
  }

  /** Continue leaves step 1 only with a property type chosen, and leaves
      step 2 only with a service chosen; a blocked Continue changes nothing. */
  lemma ContinueGuard(s: State)
    requires s.status != Success
    ensures s.step == 1 ==>
      (Next(s, Continue).state.step == 2 <==> s.form.propertyType != "")
    ensures s.step == 2 ==>
      (Next(s, Continue).state.step == 3 <==> |s.form.servicesNeeded| != 0)
    ensures Next(s, Continue).state.step == s.step || Next(s, Continue).state.step == s.step + 1
    ensures Next(s, Continue).state.step == s.step ==> Next(s, Continue).state == s
    ensures Next(s, Continue).state.form == s.form && Next(s, Continue).request.None?
  {
  }

  /** Back is always possible from steps 2 and 3 and keeps everything entered. */
  lemma BackAlwaysAllowed(s: State)
    requires s.status != Success && s.step >= 2
    ensures Next(s, Back).state == s.(step := s.step - 1)
  {
  }

  /** A submit sends exactly one request, carrying the current form, and only
      from step 3 with the button enabled; otherwise nothing happens. */
  lemma SubmitSends(s: State)
    ensures Next(s, Submit).request.Some? <==> s.step == 3 && CanSubmit(s.status)
    ensures s.step == 3 && CanSubmit(s.status) ==>
      Next(s, Submit) == Transition(s.(status := Sending), Some(Payload(s.form)))
    ensures s.status == Sending ==> Next(s, Submit) == Stay(s)
  {
  }

  /** Only a submit ever sends a request. */
  lemma OnlySubmitSends(s: State, e: Event)
    requires Next(s, e).request.Some?
    ensures e == Submit
  {
  }

  /** A settled request moves `sending` to `success` on a 2xx response and to
      `error` otherwise, keeping the step and the form. */
  lemma RespondSettles(s: State, r: Response)
    requires s.status == Sending
    ensures Next(s, Respond(r)).state == s.(status := if r == Ok then Success else Error)
  {
  }

  /** The success view is terminal: no event changes anything or sends anything. */
  lemma {:induction false} SuccessIsTerminal(s: State, events: seq<Event>)
    requires s.status == Success
    ensures Run(s, events) == s
    ensures forall e :: Next(s, e) == Stay(s)
    decreases |events|
  {
    if |events| > 0 {
      SuccessIsTerminal(s, events[1..]);
    }
  }

  /** Every request sent from a reachable state names an offered property type
      and a non-empty, duplicate-free list of offered services. */
  lemma SentRequestValid(events: seq<Event>, e: Event)
    requires Next(Run(Start, events), e).request.Some?
    ensures var s := Run(Start, events);
      && Next(s, e).request == Some(Payload(s.form))
      && s.form.propertyType in PropertyTypes
      && |s.form.servicesNeeded| != 0
      && Distinct(s.form.servicesNeeded)
  {
    Reachable(events);
  }

  /** On step 1 with no property type chosen, Continue is blocked; choosing any
      offered type unblocks it, and Continue then shows step 2 with that type
      kept in the form. */
  lemma SelectThenContinue(s: State, t: string)
    requires s.status != Success && s.step == 1 && s.form.propertyType == ""
    requires t in PropertyTypes
    ensures Next(s, Continue).state == s
    ensures Next(Next(s, SelectPropertyType(t)).state, Continue).state
      == s.(step := 2, form := s.form.(propertyType := t))
  {
  }

  /** On step 2 with nothing chosen, Continue is blocked; toggling any offered
      service on unblocks it, and toggling it off again blocks it again. */
  lemma ServicesGate(s: State, x: string)
    requires s.status != Success && s.step == 2 && s.form.servicesNeeded == []
    requires x in Services
    ensures Next(s, Continue).state.step == 2
    ensures var on := Next(s, ToggleService(x)).state;
      && Next(on, Continue).state.step == 3
      && Next(Next(on, ToggleService(x)).state, Continue).state.step == 2
  {
  }
}
