/** The workflow graph as a state machine whose stores, model and humans answer anything. */
module ReviewWorkflow {
  import opened Wrappers
  import opened Domain
  import opened Extraction
  import opened ReviewQuestions
  import Cal = CalendarSync

  // ---------- The graph ----------

  datatype Node =
    | LoadSourceEmail | NormalizeEmail | ExtractActionLinks | PrefilterRecruitment | SanitizeContent | ExtractRecruitmentData
    | ValidateExtraction | RequestReview | ResolveApplicationNode | ResolveExistingEvent
    | PlanStateTransition | PersistDomainChanges | SyncCalendar | FinalizeProcessing | MarkIgnored
    | Finished | Raised

  datatype RunStatus = Running | NeedsReview | Completed | Ignored | Failed

  datatype State = State(node: Node, status: RunStatus, source: int, account: int, result: Option<WorkflowResult>,
                         reasons: set<Reason>, request: Option<ReviewRequest>, resume: Stage, answers: Answers,
                         application: Option<ApplicationResolution>, event: Option<EventResolution>,
                         plan: Option<Plan>, eventId: Option<EventId>)

  /** What the world does at one step: any database, any model output, any calendar, any human. */
  datatype Input = Input(raises: bool, unlikely: bool, result: WorkflowResult, request: Request, threshold: real, store: Store,
                         planner: Cal.Planner, calendarEnabled: bool, calendar: Cal.State, answer: Cal.Answer, decision: Decision)

  function Start(source: int, account: int): State {
    State(LoadSourceEmail, Running, source, account, None, {}, None, ValidateStage, NO_ANSWERS, None, None, None, None)
  }

  function Ask(s: State, q: ReviewRequest, resume: Stage): State {
    s.(node := RequestReview, status := NeedsReview, request := Some(q), resume := resume)
  }

  function Fail(s: State): State {
    s.(node := Raised)
  }

  function Onward(s: State, node: Node): State {
    s.(node := node, status := Running)
  }

  function StepValidate(s: State): State {
    if s.result.None? then Fail(s)
    else
      var r := s.result.value;
      if r.validation.status == InvalidVerdict then s.(node := FinalizeProcessing, status := Failed)
      else if !r.extraction.relevant then s.(node := MarkIgnored, status := Ignored)
      else
        var q := NextReview(r, s.reasons);
        if q.Some? then Ask(s, q.value, ValidateStage) else Onward(s, ResolveApplicationNode)
  }

  function ResumeNode(stage: Stage): Node {
    match stage
    case ValidateStage => ValidateExtraction
    case ApplicationStage => ResolveApplicationNode
    case EventStage => ResolveExistingEvent
    case CalendarStage => SyncCalendar
  }

  /** An invalid decision is asked for again; nothing else changes. */
  function StepReview(w: World, s: State, d: Decision): State {
    if s.request.None? then Fail(s)
    else
      var q := s.request.value;
      if !ValidDecision(w, q, d) then s
      else
        var settled := s.(reasons := s.reasons + Settled(q.reason), status := Running);
        if d.choice == Ignore then settled.(node := MarkIgnored)
        else settled.(node := ResumeNode(s.resume), answers := Answered(w, q, d, s.resume, s.answers))
  }

  function ApplicationResolved(s: State, r: Result<ApplicationResolution>): State {
    if r.Err? then Fail(s)
    else
      var resolved := s.(application := Some(r.value));
      if r.value.Review? then Ask(resolved, ApplicationQuestion(r.value.candidates, r.value.reason), ApplicationStage)
      else Onward(resolved, ResolveExistingEvent)
  }

  ghost function StepApplication(w: World, s: State, store: Store): State {
    if s.result.None? then Fail(s)
    else
      var e := DomainEvidence(w, s.source, s.result.value, s.answers);
      if e.Err? then Fail(s)
      else
        ApplicationResolved(s, ResolveApplication(store, e.value, s.answers.application, s.answers.forceCreate))
  }

  function EventResolved(s: State, r: Result<EventResolution>): State {
    if r.Err? then Fail(s)
    else
      var resolved := s.(event := Some(r.value));
      if r.value.ReviewEvent? then Ask(resolved, EventQuestion(r.value.candidates, r.value.reason), EventStage)
      else Onward(resolved, PlanStateTransition)
  }

  ghost function StepEvent(w: World, s: State, store: Store): State {
    if s.result.None? || s.application.None? || s.application.value.Review? then Fail(s)
    else
      var e := DomainEvidence(w, s.source, s.result.value, s.answers);
      if e.Err? then Fail(s)
      else
        EventResolved(s, ResolveEvent(store, e.value, s.application.value.id, s.answers.event, s.answers.treatAsNew))
  }

  function Planned(s: State, p: Result<Plan>): State {
    if p.Err? || p.value.refusal.Some? then Fail(s) else Onward(s.(plan := Some(p.value)), PersistDomainChanges)
  }

  function StepPlan(w: World, s: State): State {
    if s.result.None? || s.application.None? || s.event.None? then Fail(s)
    else
      var e := DomainEvidence(w, s.source, s.result.value, s.answers);
      if e.Err? then Fail(s)
      else Planned(s, PlanTransition(e.value, s.application.value, s.event.value))
  }

  function Persisted(s: State, r: Result<(Store, MutationResult)>): State {
    if r.Err? then Fail(s) else Onward(s.(eventId := r.value.1.eventId), SyncCalendar)
  }

  ghost function StepPersist(s: State, store: Store): State {
    if s.plan.None? then Fail(s) else Persisted(s, Apply(store, s.plan.value))
  }

  function CalendarRequest(s: State): Cal.Request {
    Cal.Request(s.account, s.source, s.eventId, s.answers.replaceMissing, s.answers.skipCalendar)
  }

  /** A question already answered is not asked again: the sync counts as skipped. */
  function StepCalendar(s: State, result: Result<Cal.SyncResult>): State {
    if result.Err? then Fail(s)
    else if result.value.operation == Cal.ReviewRequired && CalendarReason(result.value.reason) !in s.reasons then
      Ask(s, CalendarQuestion(result.value.reason), CalendarStage)
    else Onward(s, FinalizeProcessing)
  }

  ghost function Step(w: World, s: State, i: Input): State {
    if s.node == Finished || s.node == Raised then s
    else if i.raises then Fail(s)
    else
      match s.node
      case LoadSourceEmail => Onward(s, NormalizeEmail)
      case NormalizeEmail => Onward(s, ExtractActionLinks)
      case ExtractActionLinks => Onward(s, PrefilterRecruitment)
      case PrefilterRecruitment => Onward(s, if i.unlikely then MarkIgnored else SanitizeContent)
      case SanitizeContent => Onward(s, ExtractRecruitmentData)
      case ExtractRecruitmentData => Onward(s.(result := Some(i.result)), ValidateExtraction)
      case ValidateExtraction => StepValidate(s)
      case RequestReview => StepReview(w, s, i.decision)
      case ResolveApplicationNode => StepApplication(w, s, i.store)
      case ResolveExistingEvent => StepEvent(w, s, i.store)
      case PlanStateTransition => StepPlan(w, s)
      case PersistDomainChanges => StepPersist(s, i.store)
      case SyncCalendar =>
        StepCalendar(s, Cal.Sync(i.planner, i.calendarEnabled, i.calendar, CalendarRequest(s), i.answer).result)
      case FinalizeProcessing => s.(node := Finished, status := if s.status == Failed then Failed else Completed)
      case MarkIgnored => s.(node := Finished, status := Ignored)
      case _ => s
  }

  method AnswerTimes(w: World, q: ReviewRequest, d: Decision, resume: Stage, before: Answers) returns (a: Answers)
    requires q.reviewType == TimezoneReview || q.reviewType == DatetimeReview
    ensures a == Answered(w, q, d, resume, before)
  {
    a := before;
    if q.reviewType == TimezoneReview {
      a := a.(timezone := if d.choice == Other then d.override else if d.choice.Zone? then Some(d.choice.name) else None);
      if IsCombined(q.reason) && d.clock.Some? {
        var parsed := w.parseClock(d.clock.value);
        if q.reason == TimezoneAndDeadline { a := a.(deadline := parsed); } else { a := a.(eventDatetime := parsed); }
      }
    } else if d.choice == UseOverride && d.override.Some? {
      var parsed := w.parseClock(d.override.value);
      if q.reason == DeadlineUnresolved { a := a.(deadline := parsed); } else { a := a.(eventDatetime := parsed); }
    }
  }

  method AnswerIdentity(w: World, q: ReviewRequest, d: Decision, resume: Stage, before: Answers) returns (a: Answers)
    requires q.reviewType != TimezoneReview && q.reviewType != DatetimeReview
    ensures a == Answered(w, q, d, resume, before)
  {
    a := before;
    if q.reviewType == ApplicationReview {
      if q.reason == ExtractionNeedsReview {
      } else if d.choice == CreateNew {
        a := a.(forceCreate := true);
      } else if resume == ValidateStage {
        a := a.(company := if d.choice.PickCompany? then Some(d.choice.company) else None);
      } else {
        a := a.(application := if d.choice.PickApplication? then Some(d.choice.application) else None);
      }
    } else if q.reviewType == RescheduleReview {
      if d.choice == TreatAsNew { a := a.(treatAsNew := true); }
      else { a := a.(event := if d.choice.PickEvent? then Some(d.choice.event) else None); }
    } else if d.choice == ApplyProposedUpdate {
      a := a.(replaceMissing := true);
    } else if d.choice == SkipCalendarUpdate {
      a := a.(skipCalendar := true);
    }
  }

  method SettledReasons(reason: Reason, before: set<Reason>) returns (reasons: set<Reason>)
    ensures reasons == before + Settled(reason)
  {
    reasons := before + {reason};
    if reason == TimezoneAndDatetime {
      reasons := reasons + {TimezoneAmbiguity, DatetimeUnresolved};
    } else if reason == TimezoneAndDeadline {
      reasons := reasons + {TimezoneAmbiguity, DeadlineUnresolved};
    }
  }

  /** The review node builds its update step by step. */
  method AnswerReview(w: World, s: State, d: Decision) returns (update: State)
    requires s.request.Some?
    ensures update == StepReview(w, s, d)
  {
    var q := s.request.value;
    if !ValidDecision(w, q, d) { return s; }
    var reasons := SettledReasons(q.reason, s.reasons);
    update := s.(status := Running, reasons := reasons);
    if d.choice == Ignore { return update.(node := MarkIgnored); }
    var a;
    if q.reviewType == TimezoneReview || q.reviewType == DatetimeReview {
      a := AnswerTimes(w, q, d, s.resume, s.answers);
    } else {
      a := AnswerIdentity(w, q, d, s.resume, s.answers);
    }
    var destination := SyncCalendar;
    if s.resume == ValidateStage { destination := ValidateExtraction; }
    else if s.resume == ApplicationStage { destination := ResolveApplicationNode; }
    else if s.resume == EventStage { destination := ResolveExistingEvent; }
    update := update.(node := destination, answers := a);
  }

  // ---------- Runs ----------

  /** A run with what it did: questions answered, domain writes attempted (with the state they
      were attempted in), "ignore" answers, and steps that were not repetitions of a question. */
  datatype Trace = Trace(state: State, asked: seq<Reason>, writes: seq<State>, ignored: bool, steps: nat)

  predicate AnswersNow(w: World, s: State, i: Input) {
    s.node == RequestReview && !i.raises && s.request.Some? && ValidDecision(w, s.request.value, i.decision)
  }

  /** The trace after a step to `s'`. */
  function Observed(w: World, t: Trace, i: Input, s': State): Trace {
    var s := t.state;
    Trace(s',
          if AnswersNow(w, s, i) then t.asked + [s.request.value.reason] else t.asked,
          if s.node == PersistDomainChanges then t.writes + [s] else t.writes,
          t.ignored || (AnswersNow(w, s, i) && i.decision.choice == Ignore),
          t.steps + if s' == s then 0 else 1)
  }

  ghost function Observe(w: World, t: Trace, i: Input): Trace {
    Observed(w, t, i, Step(w, t.state, i))
  }

  ghost function Run(w: World, t: Trace, inputs: seq<Input>): Trace
    decreases |inputs|
  {
    if inputs == [] then t else Run(w, Observe(w, t, inputs[0]), inputs[1..])
  }

  /** The model's output comes with the validator's own validation. */
  ghost predicate Honest(i: Input) {
    Validates(i.result.extraction, i.request, i.threshold, i.result.validation)
  }

  ghost predicate ValidatedResult(r: WorkflowResult) {
    exists request: Request, threshold: real :: Validates(r.extraction, request, threshold, r.validation)
  }

  // ---------- Questions left and steps left ----------

  function ApplicationLeft(a: Answers): nat {
    if a.forceCreate || a.application.Some? then 0 else 1
  }

  function EventLeft(a: Answers): nat {
    if a.treatAsNew || a.event.Some? then 0 else 1
  }

  function CalendarLeft(a: Answers): nat {
    if a.skipCalendar then 0 else if a.replaceMissing then 1 else 2
  }

  function ValidationLeft(result: Option<WorkflowResult>, reasons: set<Reason>): nat {
    if result.None? then 4
    else if result.value.validation.status == InvalidVerdict || !result.value.extraction.relevant then 0
    else Pending(result.value, reasons)
  }

  predicate Ending(node: Node) {
    node == FinalizeProcessing || node == MarkIgnored || node == Finished || node == Raised
  }

  function StageOf(r: Reason): Stage {
    match r
    case ApplicationReason(_) => ApplicationStage
    case EventReason(_) => EventStage
    case CalendarReason(_) => CalendarStage
    case _ => ValidateStage
  }

  /** How many questions a stage may ask in one run. */
  function Limit(stage: Stage): nat {
    match stage
    case ValidateStage => 4
    case ApplicationStage => 1
    case EventStage => 1
    case CalendarStage => 2
  }

  function QuestionsLeft(s: State, stage: Stage): nat {
    if Ending(s.node) then 0
    else
      match stage
      case ValidateStage => ValidationLeft(s.result, s.reasons)
      case ApplicationStage => ApplicationLeft(s.answers)
      case EventStage => EventLeft(s.answers)
      case CalendarStage => CalendarLeft(s.answers)
  }

  function Count(asked: seq<Reason>, stage: Stage): nat {
    if asked == [] then 0 else Count(asked[..|asked| - 1], stage) + Bit(StageOf(asked[|asked| - 1]) == stage)
  }

  lemma {:induction false} CountsAdd(asked: seq<Reason>)
    ensures |asked| == Count(asked, ValidateStage) + Count(asked, ApplicationStage) + Count(asked, EventStage) + Count(asked, CalendarStage)
  {
    if asked != [] { CountsAdd(asked[..|asked| - 1]); }
  }

  function StepsLeft(s: State): nat {
    match s.node
    case LoadSourceEmail => 29
    case NormalizeEmail => 28
    case ExtractActionLinks => 27
    case PrefilterRecruitment => 26
    case SanitizeContent => 25
    case ExtractRecruitmentData => 24
    case ValidateExtraction => 15 + 2 * ValidationLeft(s.result, s.reasons)
    case ResolveApplicationNode => 12 + 2 * ApplicationLeft(s.answers)
    case ResolveExistingEvent => 9 + 2 * EventLeft(s.answers)
    case PlanStateTransition => 8
    case PersistDomainChanges => 7
    case SyncCalendar => 2 + 2 * CalendarLeft(s.answers)
    case RequestReview =>
      (match s.resume
       case ValidateStage => 14 + 2 * ValidationLeft(s.result, s.reasons)
       case ApplicationStage => 11 + 2 * ApplicationLeft(s.answers)
       case EventStage => 8 + 2 * EventLeft(s.answers)
       case CalendarStage => 1 + 2 * CalendarLeft(s.answers))
    case FinalizeProcessing => 1
    case MarkIgnored => 1
    case _ => 0
  }

  // ---------- The invariant of a run ----------

  predicate BeforeExtraction(node: Node) {
    || node == LoadSourceEmail || node == NormalizeEmail || node == ExtractActionLinks
    || node == PrefilterRecruitment || node == SanitizeContent || node == ExtractRecruitmentData
  }

  predicate AfterValidation(s: State) {
    || s.node == ResolveApplicationNode || s.node == ResolveExistingEvent || s.node == PlanStateTransition
    || s.node == PersistDomainChanges || s.node == SyncCalendar
    || (s.node == RequestReview && s.resume != ValidateStage)
  }

  predicate AfterApplication(s: State) {
    || s.node == ResolveExistingEvent || s.node == PlanStateTransition || s.node == PersistDomainChanges
    || (s.node == RequestReview && s.resume == EventStage)
  }

  /** The result a run reasons about: validated, not rejected, relevant. */
  ghost predicate Sound(w: World, result: Option<WorkflowResult>, a: Answers, reasons: set<Reason>) {
    && result.Some? && ValidatedResult(result.value)
    && AnswersMatch(w, GapsOf(result.value.validation), a, reasons)
    && (a.application.Some? ==> CompanyId(result.value, a).Some?)
  }

  predicate Cleared(result: Option<WorkflowResult>, reasons: set<Reason>) {
    && result.Some? && result.value.validation.status != InvalidVerdict && result.value.extraction.relevant
    && NextReview(result.value, reasons).None?
  }

  /** An open question is new, and is the one its stage asks. */
  predicate Asking(s: State) {
    && s.request.Some? && s.request.value.reason !in s.reasons
    && match s.resume
       case ValidateStage =>
         && s.result.Some? && s.result.value.validation.status != InvalidVerdict && s.result.value.extraction.relevant
         && NextReview(s.result.value, s.reasons) == s.request
       case ApplicationStage =>
         && ApplicationLeft(s.answers) == 1 && s.request.value.reason.ApplicationReason?
         && s.application.Some? && s.application.value.Review?
         && s.request.value == ApplicationQuestion(s.application.value.candidates, s.request.value.reason.text)
         && (s.application.value.candidates != {} ==> s.result.Some? && CompanyId(s.result.value, s.answers).Some?)
       case EventStage =>
         && EventLeft(s.answers) == 1 && s.request.value.reason.EventReason?
         && s.event.Some? && s.event.value.ReviewEvent?
         && s.request.value == EventQuestion(s.event.value.candidates, s.request.value.reason.text)
       case CalendarStage =>
         && CalendarLeft(s.answers) > 0 && s.request.value.reason.CalendarReason?
         && s.request.value == CalendarQuestion(s.request.value.reason.text)
         && (s.answers.replaceMissing ==> s.request.value.reason.text != "linked_calendar_event_missing")
  }

  /** Resolution questions are asked at most once each. */
  predicate ReasonsCounted(reasons: set<Reason>, a: Answers) {
    && (forall r :: r in reasons && r.ApplicationReason? ==> ApplicationLeft(a) == 0)
    && (forall r :: r in reasons && r.EventReason? ==> EventLeft(a) == 0)
  }

  ghost predicate SoundIn(w: World, s: State) {
    Sound(w, s.result, s.answers, s.reasons)
  }

  predicate CountedIn(s: State) {
    ReasonsCounted(s.reasons, s.answers)
  }

  predicate Placed(s: State) {
    && (BeforeExtraction(s.node) ==> s.result.None? && s.reasons == {} && s.answers == NO_ANSWERS)
    && (AfterValidation(s) ==> Cleared(s.result, s.reasons))
    && (AfterApplication(s) ==> s.application.Some? && !s.application.value.Review?)
    && (s.node == PlanStateTransition || s.node == PersistDomainChanges ==> s.event.Some? && !s.event.value.ReviewEvent?)
    && (s.node == RequestReview ==> Asking(s))
  }

  /** Everything a domain write waits for. */
  ghost predicate WriteAllowed(w: World, s: State) {
    && Cleared(s.result, s.reasons)
    && s.application.Some? && !s.application.value.Review?
    && s.event.Some? && !s.event.value.ReviewEvent?
    && s.plan.Some? && s.plan.value.refusal.None?
    && DomainEvidence(w, s.source, s.result.value, s.answers).Ok?
    && PlanTransition(DomainEvidence(w, s.source, s.result.value, s.answers).value, s.application.value, s.event.value) == Ok(s.plan.value)
  }

  predicate BeforeWrite(s: State) {
    !Ending(s.node) && s.node != SyncCalendar && !(s.node == RequestReview && s.resume == CalendarStage)
  }

  ghost predicate StateInv(w: World, s: State) {
    && Placed(s)
    && (Ending(s.node) || (ReasonsCounted(s.reasons, s.answers) && (BeforeExtraction(s.node) || Sound(w, s.result, s.answers, s.reasons))))
  }

  ghost predicate Inv(w: World, t: Trace) {
    StateInv(w, t.state) && WriteReady(w, t.state) && AskedInv(t) && WritesInv(w, t) && EndInv(t)
  }

  ghost predicate WriteReady(w: World, s: State) {
    s.node == PersistDomainChanges ==> WriteAllowed(w, s)
  }

  predicate EndInv(t: Trace) {
    (t.ignored ==> Ignoring(t.state.node)) && t.steps + StepsLeft(t.state) <= 29
  }

  predicate Ignoring(node: Node) {
    node == MarkIgnored || node == Finished || node == Raised
  }

  ghost predicate AskedInv(t: Trace) {
    && (forall i, j :: 0 <= i < j < |t.asked| ==> t.asked[i] != t.asked[j])
    && (forall i :: 0 <= i < |t.asked| ==> t.asked[i] in t.state.reasons)
    && (forall stage: Stage :: Count(t.asked, stage) + QuestionsLeft(t.state, stage) <= Limit(stage))
  }

  ghost predicate WritesInv(w: World, t: Trace) {
    && |t.writes| <= 1 && (BeforeWrite(t.state) ==> t.writes == [])
    && (forall i :: 0 <= i < |t.writes| ==> WriteAllowed(w, t.writes[i]))
  }

  // ---------- One step keeps the invariant ----------

  /** A step that goes on: nothing settled is lost and both budgets shrink. */
  ghost predicate Advances(w: World, s: State, s': State) {
    && StateInv(w, s') && s.reasons <= s'.reasons && StepsLeft(s') < StepsLeft(s)
    && (s'.node == PersistDomainChanges ==> s.node == PlanStateTransition)
    && forall stage: Stage :: QuestionsLeft(s', stage) <= QuestionsLeft(s, stage)
  }

  lemma EndAdvances(w: World, s: State, s': State)
    requires Ending(s'.node) && s.reasons <= s'.reasons && StepsLeft(s') < StepsLeft(s)
    ensures Advances(w, s, s')
  {
  }

  /** What holds of the values of a run between validation and its end. */
  ghost predicate Vetted(w: World, result: Option<WorkflowResult>, reasons: set<Reason>, a: Answers) {
    Cleared(result, reasons) && ReasonsCounted(reasons, a) && Sound(w, result, a, reasons)
  }

  /** The resolutions a node past validation relies on. */
  predicate Resolved(s: State) {
    && (AfterApplication(s) ==> s.application.Some? && !s.application.value.Review?)
    && (s.node == PlanStateTransition || s.node == PersistDomainChanges ==> s.event.Some? && !s.event.value.ReviewEvent?)
  }

  lemma VettedIn(w: World, s: State)
    requires StateInv(w, s) && AfterValidation(s)
    ensures Vetted(w, s.result, s.reasons, s.answers) && Resolved(s) && (s.node == RequestReview ==> Asking(s))
  {
  }

  lemma VettedPlaced(w: World, s: State)
    requires Vetted(w, s.result, s.reasons, s.answers) && AfterValidation(s) && Resolved(s) && (s.node == RequestReview ==> Asking(s))
    ensures StateInv(w, s)
  {
  }

  predicate SameValues(s: State, s': State) {
    s'.result == s.result && s'.reasons == s.reasons && s'.answers == s.answers
  }

  lemma SameQuestions(s: State, s': State, stage: Stage)
    requires SameValues(s, s') && !Ending(s.node)
    ensures QuestionsLeft(s', stage) <= QuestionsLeft(s, stage)
  {
  }

  /** A step past validation that settles no question. */
  lemma MoveAdvances(w: World, s: State, s': State)
    requires Vetted(w, s.result, s.reasons, s.answers) && SameValues(s, s') && !Ending(s.node)
    requires AfterValidation(s') && Resolved(s') && (s'.node == RequestReview ==> Asking(s'))
    requires StepsLeft(s') < StepsLeft(s) && (s'.node == PersistDomainChanges ==> s.node == PlanStateTransition)
    ensures Advances(w, s, s')
  {
    VettedPlaced(w, s');
    forall stage: Stage ensures QuestionsLeft(s', stage) <= QuestionsLeft(s, stage) {
      SameQuestions(s, s', stage);
    }
  }

  predicate IsLateReason(r: Reason) {
    r.ApplicationReason? || r.EventReason? || r.CalendarReason?
  }

  lemma LateReasonsChangeNothing(r: WorkflowResult, reasons: set<Reason>, late: Reason)
    requires IsLateReason(late)
    ensures NextReview(r, reasons + {late}) == NextReview(r, reasons)
    ensures Pending(r, reasons + {late}) == Pending(r, reasons)
  {
    var g, more := GapsOf(r.validation), reasons + {late};
    assert TimezoneReviewed(more) == TimezoneReviewed(reasons);
    assert DatetimeReviewed(more) == DatetimeReviewed(reasons) && DeadlineReviewed(more) == DeadlineReviewed(reasons);
    assert DatetimeConflictReason in more <==> DatetimeConflictReason in reasons;
    assert ExtractionNeedsReview in more <==> ExtractionNeedsReview in reasons;
    assert r.company.Some? ==> (CompanyReason(r.company.value.status) in more <==> CompanyReason(r.company.value.status) in reasons);
  }

  lemma OnwardAdvances(w: World, s: State, node: Node)
    requires StateInv(w, s) && BeforeExtraction(s.node) && (BeforeExtraction(node) || node == MarkIgnored)
    requires StepsLeft(s.(node := node)) < StepsLeft(s)
    ensures Advances(w, s, Onward(s, node))
  {
  }

  function EarlyNext(node: Node, unlikely: bool): Node {
    match node
    case LoadSourceEmail => NormalizeEmail
    case NormalizeEmail => ExtractActionLinks
    case ExtractActionLinks => PrefilterRecruitment
    case PrefilterRecruitment => if unlikely then MarkIgnored else SanitizeContent
    case _ => ExtractRecruitmentData
  }

  lemma EarlyStep(w: World, s: State, i: Input)
    requires BeforeExtraction(s.node) && s.node != ExtractRecruitmentData && !i.raises
    ensures Step(w, s, i) == Onward(s, EarlyNext(s.node, i.unlikely))
  {
  }

  lemma EarlyAdvances(w: World, s: State, i: Input)
    requires StateInv(w, s) && BeforeExtraction(s.node) && s.node != ExtractRecruitmentData && !i.raises
    ensures Advances(w, s, Step(w, s, i))
  {
    EarlyStep(w, s, i);
    OnwardAdvances(w, s, EarlyNext(s.node, i.unlikely));
  }

  lemma StartSound(w: World, r: WorkflowResult)
    requires ValidatedResult(r)
    ensures Sound(w, Some(r), NO_ANSWERS, {}) && ReasonsCounted({}, NO_ANSWERS)
  {
  }

  lemma ExtractedAdvances(w: World, s: State, r: WorkflowResult)
    requires s.node == ExtractRecruitmentData && s.result.None? && s.reasons == {} && s.answers == NO_ANSWERS && ValidatedResult(r)
    requires r.validation.status != InvalidVerdict ==> Pending(r, {}) <= 4
    ensures Advances(w, s, Onward(s.(result := Some(r)), ValidateExtraction))
  {
    StartSound(w, r);
  }

  lemma ExtractionAdvances(w: World, s: State, i: Input)
    requires StateInv(w, s) && s.node == ExtractRecruitmentData && !i.raises && Honest(i)
    ensures Advances(w, s, Step(w, s, i))
  {
    assert ValidatedResult(i.result);
    if i.result.validation.status != InvalidVerdict { AtMostFour(i.result, i.request, i.threshold); }
    ExtractedAdvances(w, s, i.result);
  }

  lemma PendingSome(r: WorkflowResult, reasons: set<Reason>)
    ensures NextReview(r, reasons).None? <==> Pending(r, reasons) == 0
    ensures NextReview(r, reasons).Some? ==> NextReview(r, reasons).value.reason !in reasons
  {
    NextReviewSettles(r, reasons);
  }

  lemma ValidateAdvances(w: World, s: State)
    requires StateInv(w, s) && s.node == ValidateExtraction
    ensures Advances(w, s, StepValidate(s))
  {
    PendingSome(s.result.value, s.reasons);
    var r := s.result.value;
    if r.validation.status != InvalidVerdict && r.extraction.relevant {
      if NextReview(r, s.reasons).Some? {
        QuestionAdvances(w, s, NextReview(r, s.reasons).value);
      } else {
        ClearedAdvances(w, s);
      }
    } else {
      RejectedAdvances(w, s);
    }
  }

  lemma QuestionAdvances(w: World, s: State, q: ReviewRequest)
    requires StateInv(w, s) && s.node == ValidateExtraction
    requires s.result.value.validation.status != InvalidVerdict && s.result.value.extraction.relevant
    requires NextReview(s.result.value, s.reasons) == Some(q) && q.reason !in s.reasons
    ensures Advances(w, s, Ask(s, q, ValidateStage))
  {
  }

  lemma ClearedAdvances(w: World, s: State)
    requires StateInv(w, s) && s.node == ValidateExtraction && Cleared(s.result, s.reasons)
    ensures Advances(w, s, Onward(s, ResolveApplicationNode))
  {
    MoveAdvances(w, s, Onward(s, ResolveApplicationNode));
  }

  lemma RejectedAdvances(w: World, s: State)
    requires s.node == ValidateExtraction && s.result.Some?
    requires s.result.value.validation.status == InvalidVerdict || !s.result.value.extraction.relevant
    ensures Advances(w, s, StepValidate(s))
  {
    EndAdvances(w, s, StepValidate(s));
  }

  lemma ApplicationAdvances(w: World, s: State, store: Store)
    requires StateInv(w, s) && s.node == ResolveApplicationNode
    ensures Advances(w, s, StepApplication(w, s, store))
  {
    var e := DomainEvidence(w, s.source, s.result.value, s.answers);
    if e.Err? {
      ApplicationResolvedAdvances(w, s, Err(""));
    } else {
      var r := ResolveApplication(store, e.value, s.answers.application, s.answers.forceCreate);
      if r.Ok? && r.value.Review? { ReviewedOnce(store, e.value, s.answers.application, s.answers.forceCreate); }
      ApplicationResolvedAdvances(w, s, r);
    }
  }

  lemma ApplicationResolvedAdvances(w: World, s: State, r: Result<ApplicationResolution>)
    requires StateInv(w, s) && s.node == ResolveApplicationNode
    requires r.Ok? && r.value.Review? ==>
               s.answers.application.None? && !s.answers.forceCreate && (r.value.candidates != {} ==> CompanyId(s.result.value, s.answers).Some?)
    ensures Advances(w, s, ApplicationResolved(s, r))
  {
    VettedIn(w, s);
    if r.Err? { EndAdvances(w, s, Fail(s)); } else { MoveAdvances(w, s, ApplicationResolved(s, r)); }
  }

  /** Resolution asks only when nothing was answered, and offers candidates only for a known company. */
  lemma ReviewedOnce(store: Store, e: Evidence, selected: Option<ApplicationId>, forceCreate: bool)
    requires ResolveApplication(store, e, selected, forceCreate).Ok? && ResolveApplication(store, e, selected, forceCreate).value.Review?
    requires selected.Some? ==> e.companyId.Some?
    ensures selected.None? && !forceCreate
    ensures ResolveApplication(store, e, selected, forceCreate).value.candidates != {} ==> e.companyId.Some?
  {
  }

  lemma EventAdvances(w: World, s: State, store: Store)
    requires StateInv(w, s) && s.node == ResolveExistingEvent
    ensures Advances(w, s, StepEvent(w, s, store))
  {
    var e := DomainEvidence(w, s.source, s.result.value, s.answers);
    if e.Err? {
      EventResolvedAdvances(w, s, Err(""));
    } else {
      EventAskedOnce(store, e.value, s.application.value.id, s.answers.event, s.answers.treatAsNew);
      EventResolvedAdvances(w, s, ResolveEvent(store, e.value, s.application.value.id, s.answers.event, s.answers.treatAsNew));
    }
  }

  lemma EventAskedOnce(store: Store, e: Evidence, application: ApplicationId, selected: Option<EventId>, treatAsNew: bool)
    ensures var r := ResolveEvent(store, e, application, selected, treatAsNew);
            r.Ok? && r.value.ReviewEvent? ==> selected.None? && !treatAsNew
  {
  }

  lemma EventResolvedAdvances(w: World, s: State, r: Result<EventResolution>)
    requires StateInv(w, s) && s.node == ResolveExistingEvent
    requires r.Ok? && r.value.ReviewEvent? ==> EventLeft(s.answers) == 1
    ensures Advances(w, s, EventResolved(s, r))
  {
    VettedIn(w, s);
    if r.Err? { EndAdvances(w, s, Fail(s)); } else { MoveAdvances(w, s, EventResolved(s, r)); }
  }

  lemma PlanAdvances(w: World, s: State)
    requires StateInv(w, s) && s.node == PlanStateTransition
    ensures Advances(w, s, StepPlan(w, s))
  {
    var e := DomainEvidence(w, s.source, s.result.value, s.answers);
    PlannedAdvances(w, s, if e.Err? then Err("") else PlanTransition(e.value, s.application.value, s.event.value));
  }

  lemma PlannedAdvances(w: World, s: State, p: Result<Plan>)
    requires StateInv(w, s) && s.node == PlanStateTransition
    ensures Advances(w, s, Planned(s, p)) && s.result.Some? && s.application.Some? && s.event.Some?
  {
    VettedIn(w, s);
    if p.Err? || p.value.refusal.Some? { EndAdvances(w, s, Fail(s)); } else { MoveAdvances(w, s, Planned(s, p)); }
  }

  lemma PlanAllowsWrite(w: World, s: State)
    requires StateInv(w, s) && s.node == PlanStateTransition && StepPlan(w, s).node == PersistDomainChanges
    ensures WriteAllowed(w, StepPlan(w, s))
  {
  }

  lemma PersistAdvances(w: World, s: State, r: Result<(Store, MutationResult)>)
    requires StateInv(w, s) && s.node == PersistDomainChanges
    ensures Advances(w, s, Persisted(s, r))
  {
    VettedIn(w, s);
    if r.Err? { EndAdvances(w, s, Fail(s)); } else { MoveAdvances(w, s, Persisted(s, r)); }
  }

  lemma CalendarAdvances(w: World, s: State, i: Input)
    requires StateInv(w, s) && s.node == SyncCalendar && !i.raises
    ensures Advances(w, s, Step(w, s, i))
  {
    Cal.SyncAnswersPossible(i.planner, i.calendarEnabled, i.calendar, CalendarRequest(s), i.answer);
    var result := Cal.Sync(i.planner, i.calendarEnabled, i.calendar, CalendarRequest(s), i.answer).result;
    CalendarAnswerAdvances(w, s, result);
  }

  lemma CalendarAnswerAdvances(w: World, s: State, result: Result<Cal.SyncResult>)
    requires StateInv(w, s) && s.node == SyncCalendar
    requires result.Ok? ==> Cal.Possible(CalendarRequest(s), result.value)
    ensures Advances(w, s, StepCalendar(s, result))
  {
    VettedIn(w, s);
    var s' := StepCalendar(s, result);
    if s'.node == RequestReview { MoveAdvances(w, s, s'); } else { EndAdvances(w, s, s'); }
  }

  /** A settled answer: the question's reason joins the reasons and one question fewer is left. */
  ghost predicate Settles(w: World, s: State, s': State) {
    && Advances(w, s, s') && s.request.Some? && s.request.value.reason in s'.reasons
    && QuestionsLeft(s', StageOf(s.request.value.reason)) < QuestionsLeft(s, StageOf(s.request.value.reason))
  }

  /** An open question counts among those left to its stage. */
  lemma AskingLeft(w: World, s: State)
    requires StateInv(w, s) && s.node == RequestReview
    ensures s.request.Some? && QuestionsLeft(s, StageOf(s.request.value.reason)) > 0 && StepsLeft(s) > 1
  {
    if s.resume == ValidateStage { NextReviewSettles(s.result.value, s.reasons); }
  }

  lemma EndSettles(w: World, s: State, s': State)
    requires s.request.Some? && QuestionsLeft(s, StageOf(s.request.value.reason)) > 0 && StepsLeft(s) > 1
    requires s'.node == MarkIgnored && s.reasons <= s'.reasons && s.request.value.reason in s'.reasons
    ensures Settles(w, s, s')
  {
    EndAdvances(w, s, s');
  }

  lemma IgnoreSettles(w: World, s: State, d: Decision)
    requires StateInv(w, s) && s.node == RequestReview && ValidDecision(w, s.request.value, d) && d.choice == Ignore
    ensures Settles(w, s, StepReview(w, s, d))
  {
    AskingLeft(w, s);
    EndSettles(w, s, s.(reasons := s.reasons + Settled(s.request.value.reason), status := Running, node := MarkIgnored));
  }

  lemma ValidateAnswerSound(w: World, s: State, d: Decision)
    requires ValidWorld(w) && StateInv(w, s) && s.node == RequestReview && s.resume == ValidateStage
    requires ValidDecision(w, s.request.value, d) && d.choice != Ignore
    ensures SoundIn(w, StepReview(w, s, d)) && CountedIn(StepReview(w, s, d))
  {
    AnswerMatches(w, s.result.value, s.answers, s.reasons, d);
    ValidateAnswerKeepsOthers(w, s.result.value, s.reasons, d, s.answers);
  }

  lemma ValidateAnswerSettles(w: World, s: State, d: Decision)
    requires ValidWorld(w) && StateInv(w, s) && s.node == RequestReview && s.resume == ValidateStage
    requires ValidDecision(w, s.request.value, d) && d.choice != Ignore
    ensures Settles(w, s, StepReview(w, s, d))
  {
    ValidateAnswerSound(w, s, d);
    NextReviewSettles(s.result.value, s.reasons);
    ValidateAnswerKeepsOthers(w, s.result.value, s.reasons, d, s.answers);
    var q := s.request.value;
    var a := Answered(w, q, d, ValidateStage, s.answers);
    assert q.reason in Settled(q.reason);
    ValidateResumes(w, s, a, s.reasons + Settled(q.reason));
  }

  lemma ValidateResumes(w: World, s: State, a: Answers, reasons: set<Reason>)
    requires s.node == RequestReview && s.resume == ValidateStage && s.request.Some? && s.result.Some?
    requires s.result.value.validation.status != InvalidVerdict && s.result.value.extraction.relevant
    requires s.request.value.reason in reasons && s.reasons <= reasons && !IsLateReason(s.request.value.reason)
    requires Sound(w, s.result, a, reasons) && ReasonsCounted(reasons, a) && KeepsOthers(s.result.value, s.answers, a)
    requires Pending(s.result.value, reasons) == Pending(s.result.value, s.reasons) - 1
    ensures Settles(w, s, Resumed(s, a, reasons))
  {
    var s' := Resumed(s, a, reasons);
    assert StateInv(w, s');
    forall stage: Stage ensures QuestionsLeft(s', stage) <= QuestionsLeft(s, stage) {
      ValidateResumedLess(s, a, reasons, stage);
    }
    ValidateResumedLess(s, a, reasons, ValidateStage);
  }

  lemma ValidateResumedLess(s: State, a: Answers, reasons: set<Reason>, stage: Stage)
    requires s.node == RequestReview && s.resume == ValidateStage && s.result.Some? && KeepsOthers(s.result.value, s.answers, a)
    requires s.result.value.validation.status != InvalidVerdict && s.result.value.extraction.relevant
    requires Pending(s.result.value, reasons) == Pending(s.result.value, s.reasons) - 1
    ensures QuestionsLeft(Resumed(s, a, reasons), stage) <= QuestionsLeft(s, stage)
    ensures stage == ValidateStage ==> QuestionsLeft(Resumed(s, a, reasons), stage) < QuestionsLeft(s, stage)
    ensures StepsLeft(Resumed(s, a, reasons)) < StepsLeft(s)
  {
  }

  predicate KeepsOthers(r: WorkflowResult, a: Answers, b: Answers) {
    && b.application == a.application && b.event == a.event && b.treatAsNew == a.treatAsNew
    && b.replaceMissing == a.replaceMissing && b.skipCalendar == a.skipCalendar
    && (a.forceCreate ==> b.forceCreate)
    && (CompanyId(r, a).Some? ==> CompanyId(r, b).Some?)
  }

  lemma TimeAnswerKeepsOthers(w: World, r: WorkflowResult, q: ReviewRequest, d: Decision, a: Answers)
    requires q.reviewType == TimezoneReview || q.reviewType == DatetimeReview || q.reason == ExtractionNeedsReview
    requires q.reviewType == ApplicationReview || q.reviewType == TimezoneReview || q.reviewType == DatetimeReview
    ensures KeepsOthers(r, a, Answered(w, q, d, ValidateStage, a))
  {
  }

  lemma CompanyAnswerKeepsOthers(w: World, r: WorkflowResult, company: CompanyEvidence, d: Decision, a: Answers)
    requires d.choice in CompanyQuestion(company).choices && d.choice != Ignore
    ensures KeepsOthers(r, a, Answered(w, CompanyQuestion(company), d, ValidateStage, a))
  {
  }

  /** Answers to validation questions touch nothing the later questions are about, except that a
      company may be picked or a new application forced. */
  lemma ValidateAnswerKeepsOthers(w: World, r: WorkflowResult, reasons: set<Reason>, d: Decision, a: Answers)
    requires NextReview(r, reasons).Some? && d.choice in NextReview(r, reasons).value.choices && d.choice != Ignore
    ensures var q := NextReview(r, reasons).value;
            && (forall x :: x in Settled(q.reason) ==> !IsLateReason(x))
            && KeepsOthers(r, a, Answered(w, q, d, ValidateStage, a))
  {
    var q := NextReview(r, reasons).value;
    if q.reason.CompanyReason? {
      CompanyAnswerKeepsOthers(w, r, r.company.value, d, a);
    } else {
      TimeAnswerKeepsOthers(w, r, q, d, a);
    }
  }

  lemma LateSound(w: World, s: State, d: Decision, late: Reason)
    requires Sound(w, s.result, s.answers, s.reasons) && s.request.Some? && s.request.value.reason == late && IsLateReason(late)
    requires s.request.value.reviewType != TimezoneReview && s.request.value.reviewType != DatetimeReview
    ensures AnswersMatch(w, GapsOf(s.result.value.validation), Answered(w, s.request.value, d, s.resume, s.answers), s.reasons + Settled(late))
    ensures NextReview(s.result.value, s.reasons + Settled(late)) == NextReview(s.result.value, s.reasons)
    ensures Pending(s.result.value, s.reasons + Settled(late)) == Pending(s.result.value, s.reasons)
  {
    OtherAnswerMatches(w, GapsOf(s.result.value.validation), s.answers, s.reasons, s.request.value, d, s.resume);
    LateReasonsChangeNothing(s.result.value, s.reasons, late);
  }

  lemma ApplicationAnswerLeft(w: World, candidates: set<ApplicationId>, reason: string, d: Decision, a: Answers)
    requires d.choice in ApplicationQuestion(candidates, reason).choices && d.choice != Ignore && ApplicationLeft(a) == 1
    ensures var b := Answered(w, ApplicationQuestion(candidates, reason), d, ApplicationStage, a);
            AnsweredLate(a, b, ApplicationStage) && (b.application.Some? ==> candidates != {})
  {
  }

  lemma EventAnswerLeft(w: World, candidates: set<EventId>, reason: string, d: Decision, a: Answers)
    requires d.choice in EventQuestion(candidates, reason).choices && d.choice != Ignore && EventLeft(a) == 1
    ensures var b := Answered(w, EventQuestion(candidates, reason), d, EventStage, a);
            AnsweredLate(a, b, EventStage) && b.application == a.application
  {
  }

  lemma CalendarAnswerLeft(w: World, reason: string, d: Decision, a: Answers)
    requires d.choice in CalendarQuestion(reason).choices && d.choice != Ignore && CalendarLeft(a) > 0
    requires a.replaceMissing ==> reason != "linked_calendar_event_missing"
    ensures var b := Answered(w, CalendarQuestion(reason), d, CalendarStage, a);
            AnsweredLate(a, b, CalendarStage) && b.application == a.application
  {
  }

  /** An answer of a late stage leaves that stage one question fewer, and no stage more. */
  predicate AnsweredLate(a: Answers, b: Answers, stage: Stage) {
    && b.company == a.company
    && ApplicationLeft(b) == ApplicationLeft(a) - Bit(stage == ApplicationStage)
    && EventLeft(b) == EventLeft(a) - Bit(stage == EventStage)
    && (if stage == CalendarStage then CalendarLeft(b) < CalendarLeft(a) else CalendarLeft(b) == CalendarLeft(a))
  }

  lemma LateAnswerLeft(w: World, s: State, d: Decision)
    requires s.node == RequestReview && s.resume != ValidateStage && Asking(s)
    requires d.choice in s.request.value.choices && d.choice != Ignore
    requires s.answers.application.Some? ==> s.result.Some? && CompanyId(s.result.value, s.answers).Some?
    ensures var b := Answered(w, s.request.value, d, s.resume, s.answers);
            && AnsweredLate(s.answers, b, s.resume) && StageOf(s.request.value.reason) == s.resume
            && (b.application.Some? ==> s.result.Some? && CompanyId(s.result.value, b).Some?)
  {
    var text := if s.request.value.reason.CalendarReason? then s.request.value.reason.text else "";
    match s.resume
    case ApplicationStage => ApplicationAnswerLeft(w, s.application.value.candidates, s.request.value.reason.text, d, s.answers);
    case EventStage => EventAnswerLeft(w, s.event.value.candidates, s.request.value.reason.text, d, s.answers);
    case CalendarStage => CalendarAnswerLeft(w, text, d, s.answers);
  }

  /** The state after an answer of a late stage. */
  function Resumed(s: State, a: Answers, reasons: set<Reason>): State {
    s.(node := ResumeNode(s.resume), status := Running, reasons := reasons, answers := a)
  }

  lemma ReasonsStayCounted(reasons: set<Reason>, a: Answers, b: Answers, stage: Stage, late: Reason)
    requires ReasonsCounted(reasons, a) && AnsweredLate(a, b, stage) && StageOf(late) == stage && stage != ValidateStage
    ensures ReasonsCounted(reasons + {late}, b)
  {
  }

  lemma ResumedSound(w: World, s: State, a: Answers, reasons: set<Reason>)
    requires s.node == RequestReview && s.resume != ValidateStage && Resolved(s) && Vetted(w, s.result, reasons, a)
    ensures StateInv(w, Resumed(s, a, reasons))
  {
    VettedPlaced(w, Resumed(s, a, reasons));
  }

  lemma ResumedLess(s: State, a: Answers, reasons: set<Reason>, stage: Stage)
    requires s.node == RequestReview && s.resume != ValidateStage && s.result.Some? && AnsweredLate(s.answers, a, s.resume)
    requires Pending(s.result.value, reasons) == Pending(s.result.value, s.reasons)
    ensures QuestionsLeft(Resumed(s, a, reasons), stage) <= QuestionsLeft(s, stage)
    ensures stage == s.resume ==> QuestionsLeft(Resumed(s, a, reasons), stage) < QuestionsLeft(s, stage)
    ensures StepsLeft(Resumed(s, a, reasons)) < StepsLeft(s)
  {
  }

  lemma ResumedSettles(w: World, s: State, a: Answers, reasons: set<Reason>)
    requires s.node == RequestReview && s.resume != ValidateStage && s.request.Some? && StageOf(s.request.value.reason) == s.resume
    requires StateInv(w, Resumed(s, a, reasons)) && s.result.Some? && AnsweredLate(s.answers, a, s.resume)
    requires Pending(s.result.value, reasons) == Pending(s.result.value, s.reasons) && reasons == s.reasons + {s.request.value.reason}
    ensures Settles(w, s, Resumed(s, a, reasons))
  {
    forall stage: Stage ensures QuestionsLeft(Resumed(s, a, reasons), stage) <= QuestionsLeft(s, stage) {
      ResumedLess(s, a, reasons, stage);
    }
    ResumedLess(s, a, reasons, s.resume);
  }

  lemma LateAnswerSettles(w: World, s: State, d: Decision)
    requires StateInv(w, s) && s.node == RequestReview && s.resume != ValidateStage
    requires ValidDecision(w, s.request.value, d) && d.choice != Ignore
    ensures Settles(w, s, StepReview(w, s, d))
  {
    VettedIn(w, s);
    var q := s.request.value;
    var a, reasons := Answered(w, q, d, s.resume, s.answers), s.reasons + Settled(q.reason);
    LateAnswerLeft(w, s, d);
    LateSound(w, s, d, q.reason);
    ReasonsStayCounted(s.reasons, s.answers, a, s.resume, q.reason);
    ResumedSound(w, s, a, reasons);
    ResumedSettles(w, s, a, reasons);
    assert StepReview(w, s, d) == Resumed(s, a, reasons);
  }

  lemma AnswerSettles(w: World, s: State, d: Decision)
    requires ValidWorld(w) && StateInv(w, s) && s.node == RequestReview && ValidDecision(w, s.request.value, d)
    ensures Settles(w, s, StepReview(w, s, d))
  {
    if d.choice == Ignore {
      IgnoreSettles(w, s, d);
    } else {
      if s.resume == ValidateStage { ValidateAnswerSettles(w, s, d); } else { LateAnswerSettles(w, s, d); }
    }
  }

  lemma FailAdvances(w: World, s: State)
    requires s.node != Finished && s.node != Raised
    ensures Advances(w, s, Fail(s))
  {
    EndAdvances(w, s, Fail(s));
  }

  lemma StepAdvances(w: World, s: State, i: Input)
    requires ValidWorld(w) && Honest(i) && StateInv(w, s)
    requires s.node != Finished && s.node != Raised && (s.node == RequestReview && !i.raises ==> AnswersNow(w, s, i))
    ensures Advances(w, s, Step(w, s, i))
    ensures AnswersNow(w, s, i) ==> Settles(w, s, Step(w, s, i))
  {
    if i.raises {
      FailAdvances(w, s);
    } else if BeforeExtraction(s.node) {
      if s.node == ExtractRecruitmentData { ExtractionAdvances(w, s, i); } else { EarlyAdvances(w, s, i); }
    } else {
      LateStepAdvances(w, s, i);
    }
  }

  lemma LateStepAdvances(w: World, s: State, i: Input)
    requires ValidWorld(w) && StateInv(w, s) && !i.raises && !BeforeExtraction(s.node)
    requires s.node != Finished && s.node != Raised && (s.node == RequestReview ==> AnswersNow(w, s, i))
    ensures Advances(w, s, Step(w, s, i))
    ensures AnswersNow(w, s, i) ==> Settles(w, s, Step(w, s, i))
  {
    match s.node {
      case ValidateExtraction => ValidateAdvances(w, s);
      case RequestReview => AnswerSettles(w, s, i.decision);
      case ResolveApplicationNode => ApplicationAdvances(w, s, i.store);
      case ResolveExistingEvent => EventAdvances(w, s, i.store);
      case PlanStateTransition => PlanAdvances(w, s);
      case PersistDomainChanges => PersistAdvances(w, s, if s.plan.None? then Err("") else Apply(i.store, s.plan.value));
      case SyncCalendar => CalendarAdvances(w, s, i);
      case FinalizeProcessing =>
      case MarkIgnored =>
    }
  }

  /** No path leads back before the write, and an ignored run only ends. */
  predicate Ordered(s: State, s': State) {
    && (BeforeWrite(s') ==> BeforeWrite(s) && s.node != PersistDomainChanges)
    && (Ignoring(s.node) ==> Ignoring(s'.node))
  }

  lemma StepOrdered(w: World, s: State, i: Input)
    requires s.node != PersistDomainChanges
    ensures Ordered(s, Step(w, s, i))
    ensures AnswersNow(w, s, i) && i.decision.choice == Ignore ==> Ignoring(Step(w, s, i).node)
  {
  }

  lemma PersistOrdered(s: State, r: Result<(Store, MutationResult)>)
    requires s.node == PersistDomainChanges
    ensures Ordered(s, Persisted(s, r)) && Ordered(s, Fail(s))
  {
  }

  lemma AskedKeeps(t: Trace, t': Trace, answered: bool)
    requires AskedInv(t) && t.state.reasons <= t'.state.reasons
    requires forall stage: Stage :: QuestionsLeft(t'.state, stage) <= QuestionsLeft(t.state, stage)
    requires answered ==> t.state.request.Some?
    requires t'.asked == if answered then t.asked + [t.state.request.value.reason] else t.asked
    requires answered ==>
               var reason := t.state.request.value.reason;
               reason !in t.state.reasons && reason in t'.state.reasons
               && QuestionsLeft(t'.state, StageOf(reason)) < QuestionsLeft(t.state, StageOf(reason))
    ensures AskedInv(t')
  {
    if answered { assert t'.asked[..|t'.asked| - 1] == t.asked; }
    forall stage: Stage ensures Count(t'.asked, stage) + QuestionsLeft(t'.state, stage) <= Limit(stage) {
      assert QuestionsLeft(t'.state, stage) <= QuestionsLeft(t.state, stage);
    }
  }

  lemma WritesKeep(w: World, t: Trace, t': Trace)
    requires WritesInv(w, t) && WriteReady(w, t.state) && Ordered(t.state, t'.state)
    requires t'.writes == if t.state.node == PersistDomainChanges then t.writes + [t.state] else t.writes
    ensures WritesInv(w, t')
  {
    if t.state.node == PersistDomainChanges {
      assert t'.writes == [t.state];
    }
  }

  lemma StepKeepsReady(w: World, s: State, i: Input)
    requires StateInv(w, s) && Advances(w, s, Step(w, s, i)) && !i.raises
    ensures WriteReady(w, Step(w, s, i))
  {
    if s.node == PlanStateTransition && StepPlan(w, s).node == PersistDomainChanges { PlanAllowsWrite(w, s); }
  }

  lemma ObservedKeeps(w: World, t: Trace, i: Input, s': State)
    requires Inv(w, t) && Advances(w, t.state, s') && Ordered(t.state, s') && WriteReady(w, s')
    requires AnswersNow(w, t.state, i) ==> Settles(w, t.state, s') && (i.decision.choice == Ignore ==> Ignoring(s'.node))
    ensures Inv(w, Observed(w, t, i, s'))
  {
    var t' := Observed(w, t, i, s');
    AskedKeeps(t, t', AnswersNow(w, t.state, i));
    WritesKeep(w, t, t');
  }

  /** The step repeats the question it stands at, or the run is over. */
  predicate Stutters(w: World, s: State, i: Input) {
    s.node == Finished || s.node == Raised || (s.node == RequestReview && !i.raises && !AnswersNow(w, s, i))
  }

  lemma StutterKeeps(w: World, t: Trace, i: Input)
    requires Inv(w, t) && Stutters(w, t.state, i)
    ensures Observe(w, t, i) == t
  {
    assert Step(w, t.state, i) == t.state;
  }

  lemma PersistStepOrdered(w: World, s: State, i: Input)
    requires s.node == PersistDomainChanges
    ensures Ordered(s, Step(w, s, i))
  {
    PersistOrdered(s, if s.plan.None? then Err("") else Apply(i.store, s.plan.value));
  }

  lemma StepFacts(w: World, s: State, i: Input)
    requires ValidWorld(w) && Honest(i) && StateInv(w, s) && !Stutters(w, s, i)
    ensures Advances(w, s, Step(w, s, i)) && Ordered(s, Step(w, s, i)) && WriteReady(w, Step(w, s, i))
    ensures AnswersNow(w, s, i) ==> Settles(w, s, Step(w, s, i)) && (i.decision.choice == Ignore ==> Ignoring(Step(w, s, i).node))
  {
    StepAdvances(w, s, i);
    if s.node == PersistDomainChanges { PersistStepOrdered(w, s, i); } else { StepOrdered(w, s, i); }
    if !i.raises { StepKeepsReady(w, s, i); }
  }

  lemma ObserveKeeps(w: World, t: Trace, i: Input)
    requires ValidWorld(w) && Honest(i) && Inv(w, t)
    ensures Inv(w, Observe(w, t, i))
  {
    if Stutters(w, t.state, i) {
      StutterKeeps(w, t, i);
    } else {
      StepFacts(w, t.state, i);
      ObservedKeeps(w, t, i, Step(w, t.state, i));
    }
  }

  lemma {:induction false} RunKeeps(w: World, t: Trace, inputs: seq<Input>)
    requires ValidWorld(w) && Inv(w, t) && forall k :: 0 <= k < |inputs| ==> Honest(inputs[k])
    ensures Inv(w, Run(w, t, inputs))
    decreases |inputs|
  {
    if inputs != [] {
      assert Honest(inputs[0]);
      ObserveKeeps(w, t, inputs[0]);
      RunKeeps(w, Observe(w, t, inputs[0]), inputs[1..]);
    }
  }

  // ---------- Main results ----------

  function Begin(source: int, account: int): Trace {
    Trace(Start(source, account), [], [], false, 0)
  }

  ghost predicate AllHonest(inputs: seq<Input>) {
    forall k :: 0 <= k < |inputs| ==> Honest(inputs[k])
  }

  lemma BeginKeeps(w: World, source: int, account: int)
    ensures Inv(w, Begin(source, account)) && StepsLeft(Begin(source, account).state) == 29
  {
  }

  /** Whatever the stores answer and whatever valid choices are made: no reason is asked twice, at
      most eight questions are answered (4 in validation, 1 for the application, 1 for the event,
      2 for the calendar), and at most 29 steps are taken. */
  lemma RunBounded(w: World, source: int, account: int, inputs: seq<Input>)
    requires ValidWorld(w) && AllHonest(inputs)
    ensures var t := Run(w, Begin(source, account), inputs);
            && (forall i, j :: 0 <= i < j < |t.asked| ==> t.asked[i] != t.asked[j])
            && (forall stage: Stage :: Count(t.asked, stage) <= Limit(stage))
            && |t.asked| <= 8 && t.steps <= 29
  {
    BeginKeeps(w, source, account);
    RunKeeps(w, Begin(source, account), inputs);
    CountsAdd(Run(w, Begin(source, account), inputs).asked);
  }

  /** The domain write is attempted at most once, from a state with a sound relevant extraction, no
      open question, a resolved application and event, and an allowed plan made of them. */
  lemma WriteGuarded(w: World, source: int, account: int, inputs: seq<Input>)
    requires ValidWorld(w) && AllHonest(inputs)
    ensures var t := Run(w, Begin(source, account), inputs);
            |t.writes| <= 1 && forall i :: 0 <= i < |t.writes| ==> WriteAllowed(w, t.writes[i])
  {
    BeginKeeps(w, source, account);
    RunKeeps(w, Begin(source, account), inputs);
  }

  /** After an "ignore" answer nothing is written any more. */
  lemma {:induction false} IgnoredWritesNothing(w: World, t: Trace, inputs: seq<Input>)
    requires ValidWorld(w) && AllHonest(inputs) && Inv(w, t) && t.ignored
    ensures Run(w, t, inputs).writes == t.writes
    decreases |inputs|
  {
    if inputs != [] {
      assert Honest(inputs[0]);
      ObserveKeeps(w, t, inputs[0]);
      IgnoredWritesNothing(w, Observe(w, t, inputs[0]), inputs[1..]);
    }
  }

  predicate Over(s: State) {
    s.node == Finished || s.node == Raised
  }

  /** Every question met on the way is answered with a valid decision (or the node raises). */
  ghost predicate Answering(w: World, t: Trace, inputs: seq<Input>)
    decreases |inputs|
  {
    inputs == [] ||
    ((t.state.node == RequestReview && !inputs[0].raises ==> AnswersNow(w, t.state, inputs[0]))
     && Answering(w, Observe(w, t, inputs[0]), inputs[1..]))
  }

  lemma {:induction false} AnsweringShrinks(w: World, t: Trace, inputs: seq<Input>)
    requires ValidWorld(w) && AllHonest(inputs) && Inv(w, t) && Answering(w, t, inputs)
    ensures Over(Run(w, t, inputs).state) || StepsLeft(Run(w, t, inputs).state) + |inputs| <= StepsLeft(t.state)
    decreases |inputs|
  {
    if inputs != [] {
      assert Honest(inputs[0]);
      var t' := Observe(w, t, inputs[0]);
      ObserveKeeps(w, t, inputs[0]);
      AnsweringShrinks(w, t', inputs[1..]);
      if Over(t.state) {
        OverStays(w, t', inputs[1..]);
      } else {
        ObserveShrinks(w, t, inputs[0]);
      }
    }
  }

  lemma ObserveShrinks(w: World, t: Trace, i: Input)
    requires ValidWorld(w) && Honest(i) && StateInv(w, t.state) && !Over(t.state)
    requires t.state.node == RequestReview && !i.raises ==> AnswersNow(w, t.state, i)
    ensures StepsLeft(Observe(w, t, i).state) < StepsLeft(t.state)
  {
    StepAdvances(w, t.state, i);
  }

  lemma {:induction false} OverStays(w: World, t: Trace, inputs: seq<Input>)
    requires Over(t.state)
    ensures Run(w, t, inputs).state == t.state
    decreases |inputs|
  {
    if inputs != [] { OverStays(w, Observe(w, t, inputs[0]), inputs[1..]); }
  }

  lemma NoStepsLeft(s: State)
    requires StepsLeft(s) == 0
    ensures Over(s)
  {
  }

  /** A run whose questions are answered is over after 29 steps. */
  lemma RunEnds(w: World, source: int, account: int, inputs: seq<Input>)
    requires ValidWorld(w) && AllHonest(inputs) && Answering(w, Begin(source, account), inputs) && |inputs| >= 29
    ensures Over(Run(w, Begin(source, account), inputs).state)
  {
    BeginKeeps(w, source, account);
    AnsweringShrinks(w, Begin(source, account), inputs);
    if !Over(Run(w, Begin(source, account), inputs).state) { NoStepsLeft(Run(w, Begin(source, account), inputs).state); }
  }

  /** Past validation, evidence fails only in the two families the questionnaire cannot close, and a
      write is refused for time evidence in one more. */
  ghost predicate RefusalsExplained(w: World, s: State, r: WorkflowResult) {
    var e := DomainEvidence(w, s.source, r, s.answers);
    && (e.Ok? <==> RoleConsistent(w, r) && !NaiveOverride(r, s.answers))
    && (e.Ok? ==> Refusal(e.value) == if r.extraction.eventType == InterviewReschedule && r.extraction.sourceDatetimeText.None?
                                      then Some("interview_datetime_unresolved") else None)
  }

  /** The nodes that build evidence; the first of them raises when that fails. */
  predicate BuildsEvidence(node: Node) {
    node == ResolveApplicationNode || node == ResolveExistingEvent || node == PlanStateTransition
  }

  lemma EvidenceRefusals(w: World, source: int, account: int, inputs: seq<Input>)
    requires ValidWorld(w) && AllHonest(inputs)
    ensures var s := Run(w, Begin(source, account), inputs).state;
            BuildsEvidence(s.node) ==> s.result.Some? && RefusalsExplained(w, s, s.result.value)
  {
    BeginKeeps(w, source, account);
    RunKeeps(w, Begin(source, account), inputs);
    var s := Run(w, Begin(source, account), inputs).state;
    if BuildsEvidence(s.node) {
      var request: Request, threshold: real :| Validates(s.result.value.extraction, request, threshold, s.result.value.validation);
      QuestionnaireComplete(w, s.source, s.result.value, s.answers, s.reasons, request, threshold);
    }
  }

  // ---------- A run that raises ----------

  /** `n` steps that all meet the same input. */
  ghost function Steps(w: World, s: State, i: Input, n: nat): State
    decreases n
  {
    if n == 0 then s else Steps(w, Step(w, s, i), i, n - 1)
  }

  lemma {:induction false} RunRepeats(w: World, t: Trace, i: Input, inputs: seq<Input>)
    requires forall k :: 0 <= k < |inputs| ==> inputs[k] == i
    ensures Run(w, t, inputs).state == Steps(w, t.state, i, |inputs|)
    decreases |inputs|
  {
    if inputs != [] { RunRepeats(w, Observe(w, t, i), i, inputs[1..]); }
  }

  lemma Stepped(w: World, s: State, i: Input, n: nat, s': State)
    requires n > 0 && Step(w, s, i) == s'
    ensures Steps(w, s, i, n) == Steps(w, s', i, n - 1)
  {
  }

  /** The first six steps of any undisturbed run with a likely email. */
  lemma RunExtracts(w: World, source: int, account: int, i: Input)
    requires !i.raises && !i.unlikely
    ensures Steps(w, Start(source, account), i, 10)
         == Steps(w, Start(source, account).(node := ValidateExtraction, result := Some(i.result)), i, 4)
  {
    var s := Start(source, account);
    Stepped(w, s, i, 10, s.(node := NormalizeEmail));
    Stepped(w, s.(node := NormalizeEmail), i, 9, s.(node := ExtractActionLinks));
    Stepped(w, s.(node := ExtractActionLinks), i, 8, s.(node := PrefilterRecruitment));
    Stepped(w, s.(node := PrefilterRecruitment), i, 7, s.(node := SanitizeContent));
    Stepped(w, s.(node := SanitizeContent), i, 6, s.(node := ExtractRecruitmentData));
    Stepped(w, s.(node := ExtractRecruitmentData), i, 5, s.(node := ValidateExtraction, result := Some(i.result)));
  }

  /** From validation: the question, its answer, validation again, and evidence that fails. */
  lemma AnswerRaises(w: World, s: State, i: Input, q: ReviewRequest, a: Answers)
    requires s.node == ValidateExtraction && s.result.Some? && s.reasons == {} && s.answers == NO_ANSWERS && !i.raises
    requires var r := s.result.value;
             && r.validation.status != InvalidVerdict && r.extraction.relevant
             && NextReview(r, {}) == Some(q) && NextReview(r, Settled(q.reason)).None?
             && ValidDecision(w, q, i.decision) && i.decision.choice != Ignore
             && a == Answered(w, q, i.decision, ValidateStage, NO_ANSWERS) && DomainEvidence(w, s.source, r, a).Err?
    ensures Steps(w, s, i, 4).node == Raised
  {
    var asked := Ask(s, q, ValidateStage);
    var answered := asked.(reasons := Settled(q.reason), status := Running, node := ValidateExtraction, answers := a);
    var resolving := answered.(node := ResolveApplicationNode);
    ValidateStep(w, s, i);
    Stepped(w, s, i, 4, asked);
    ReviewStep(w, asked, i, q, a);
    Stepped(w, asked, i, 3, answered);
    ValidateStep(w, answered, i);
    Stepped(w, answered, i, 2, resolving);
    ResolveStep(w, resolving, i);
    Stepped(w, resolving, i, 1, Fail(resolving));
  }

  lemma ValidateStep(w: World, s: State, i: Input)
    requires s.node == ValidateExtraction && !i.raises
    ensures Step(w, s, i) == StepValidate(s)
  {
  }

  lemma ReviewStep(w: World, s: State, i: Input, q: ReviewRequest, a: Answers)
    requires s.node == RequestReview && !i.raises && s.request == Some(q) && ValidDecision(w, q, i.decision) && i.decision.choice != Ignore
    requires s.reasons == {} && s.resume == ValidateStage && a == Answered(w, q, i.decision, ValidateStage, s.answers)
    ensures Step(w, s, i) == s.(reasons := Settled(q.reason), status := Running, node := ValidateExtraction, answers := a)
  {
    assert {} + Settled(q.reason) == Settled(q.reason);
  }

  lemma ResolveStep(w: World, s: State, i: Input)
    requires s.node == ResolveApplicationNode && !i.raises && s.result.Some?
    requires DomainEvidence(w, s.source, s.result.value, s.answers).Err?
    ensures Step(w, s, i) == Fail(s)
  {
  }

  /** A human answers in the format shown, nothing else is open, and the run raises: every such email
      under every database. */
  lemma ShownFormatRun(w: World, source: int, account: int, i: Input, text: string)
    requires !i.raises && !i.unlikely && i.result.extraction.relevant && OpenUnderZone(i.result, i.request, i.threshold)
    requires NextReview(i.result, {DatetimeUnresolved}).None?
    requires w.parseClock(text).Some? && !IsAware(w.parseClock(text).value) && i.decision == Decision(UseOverride, Some(text), None)
    ensures Run(w, Begin(source, account), seq(10, _ => i)).state.node == Raised
  {
    var q := ClockQuestion(DatetimeUnresolved);
    var s := Start(source, account).(node := ValidateExtraction, result := Some(i.result));
    ShownFormatRaises(w, source, i.result, i.request, i.threshold, text);
    RunRepeats(w, Begin(source, account), i, seq(10, _ => i));
    RunExtracts(w, source, account, i);
    AnswerRaises(w, s, i, q, Answered(w, q, i.decision, ValidateStage, NO_ANSWERS));
  }
}
