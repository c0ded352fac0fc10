/** What each answer of a human does: to the answers kept, to the evidence, and to the next step of
    the run. */
module ReviewLaws {
  import opened Wrappers
  import opened Domain
  import opened DomainLaws
  import opened Extraction
  import opened ReviewQuestions
  import opened ReviewWorkflow
  import Cal = CalendarSync

  // ---------- Which question comes first ----------

  predicate ZoneOpen(x: Extraction, reasons: set<Reason>) {
    && !x.timezoneExplicit && (x.eventDatetime.Some? || x.deadline.Some? || x.sourceDatetimeText.Some? || x.sourceDeadlineText.Some?)
    && TimezoneAmbiguity !in reasons && TimezoneAndDatetime !in reasons && TimezoneAndDeadline !in reasons
  }

  predicate ClockOpen(x: Extraction, reasons: set<Reason>) {
    x.eventDatetime.None? && x.sourceDatetimeText.Some? && DatetimeUnresolved !in reasons && TimezoneAndDatetime !in reasons
  }

  predicate DeadlineOpen(x: Extraction, reasons: set<Reason>) {
    x.deadline.None? && x.sourceDeadlineText.Some? && DeadlineUnresolved !in reasons && TimezoneAndDeadline !in reasons
  }

  /** Some finding that is not about times wants a review. */
  predicate OtherOpen(v: Validation, reasons: set<Reason>) {
    && ExtractionNeedsReview !in reasons && v.status == NeedsReviewVerdict
    && exists i :: 0 <= i < |v.issues| && v.issues[i].code !in {TimezoneConflict, TimezoneAmbiguous, DatetimeUnresolvedCode, DeadlineUnresolvedCode}
  }

  predicate CompanyOpen(r: WorkflowResult, reasons: set<Reason>) {
    r.company.Some? && r.company.value.id.None? && CompanyReason(r.company.value.status) !in reasons
  }

  /** A missing zone is asked first, together with a missing datetime or else a missing deadline; then the
      datetime, the deadline, the remaining doubts, and last the company. */
  lemma FirstQuestion(r: WorkflowResult, reasons: set<Reason>, request: Request, threshold: real)
    requires Validates(r.extraction, request, threshold, r.validation) && r.validation.status != InvalidVerdict
    ensures var x, q := r.extraction, NextReview(r, reasons);
            if ZoneOpen(x, reasons) then
              q == Some(ReviewRequest(TimezoneReview,
                                      if ClockOpen(x, reasons) then TimezoneAndDatetime
                                      else if DeadlineOpen(x, reasons) then TimezoneAndDeadline else TimezoneAmbiguity,
                                      {Zone("Europe/London"), Zone("Asia/Shanghai"), Other, Ignore}))
            else if ClockOpen(x, reasons) then q == Some(ReviewRequest(DatetimeReview, DatetimeUnresolved, {UseOverride, Ignore}))
            else if DeadlineOpen(x, reasons) then q == Some(ReviewRequest(DatetimeReview, DeadlineUnresolved, {UseOverride, Ignore}))
            else if OtherOpen(r.validation, reasons) then q == Some(ReviewRequest(ApplicationReview, ExtractionNeedsReview, {Accept, Ignore}))
            else if CompanyOpen(r, reasons) then q == Some(CompanyQuestion(r.company.value)) else q == None
  {
    GapsAreReported(r.extraction, request, threshold, r.validation);
    AcceptedTimesCoherent(r.extraction, request, threshold, r.validation);
    OtherExactly(r.validation, reasons);
  }

  lemma OtherExactly(v: Validation, reasons: set<Reason>)
    ensures OtherOpen(v, reasons) <==> GapsOf(v).other && ExtractionNeedsReview !in reasons
  {
    if OtherOpen(v, reasons) {
      var i :| 0 <= i < |v.issues| && v.issues[i].code !in {TimezoneConflict, TimezoneAmbiguous, DatetimeUnresolvedCode, DeadlineUnresolvedCode};
      assert !IsTimeGap(v.issues[i].code);
    }
  }

  /** What may be picked: the candidates, a new one, or to ignore the email. */
  lemma PickableExactly(company: CompanyEvidence, applications: set<ApplicationId>, events: set<EventId>, reason: string, c: Choice)
    ensures c in CompanyQuestion(company).choices <==> (c.PickCompany? && c.company in company.candidates) || c == CreateNew || c == Ignore
    ensures c in ApplicationQuestion(applications, reason).choices
       <==> (c.PickApplication? && c.application in applications) || c == CreateNew || c == Ignore
    ensures c in EventQuestion(events, reason).choices <==> (c.PickEvent? && c.event in events) || c == TreatAsNew || c == Ignore
    ensures c in CalendarQuestion(reason).choices
       <==> c == SkipCalendarUpdate || c == Ignore || (c == ApplyProposedUpdate && reason == "linked_calendar_event_missing")
  {
  }

  /** A combined question wants a readable clock and a zone, a datetime question a readable clock, and
      "other" a known zone; nothing else may be given. */
  lemma ValidExactly(w: World, q: ReviewRequest, d: Decision)
    ensures ValidDecision(w, q, d) <==>
              && d.choice in q.choices
              && (if q.reason == TimezoneAndDatetime || q.reason == TimezoneAndDeadline then
                    d.clock.Some? == (d.choice != Ignore) && (d.clock.Some? ==> w.parseClock(d.clock.value).Some?)
                  else d.clock.None?)
              && (if d.choice == Other then d.override.Some? && w.zoneKnown(d.override.value)
                  else if d.choice == UseOverride && q.reviewType == DatetimeReview
                          && q.reason != TimezoneAndDatetime && q.reason != TimezoneAndDeadline then
                    d.override.Some? && w.parseClock(d.override.value).Some?
                  else d.override.None?)
  {
  }

  // ---------- What an answer records ----------

  /** The zone a human chose. */
  function ChosenZone(d: Decision): Option<string> {
    if d.choice == Other then d.override else if d.choice.Zone? then Some(d.choice.name) else None
  }

  /** Each time question records the zone or the clock it asked for, and nothing else. */
  lemma TimeAnswerRecorded(w: World, q: ReviewRequest, d: Decision, a: Answers)
    requires ValidWorld(w) && ValidDecision(w, q, d) && d.choice != Ignore
    ensures var b := Answered(w, q, d, ValidateStage, a);
            && (q == ZoneQuestion(TimezoneAmbiguity) ==> ChosenZone(d).Some? && b == a.(timezone := ChosenZone(d)))
            && (q == ZoneQuestion(TimezoneAndDatetime) ==>
                  ChosenZone(d).Some? && d.clock.Some? && b == a.(timezone := ChosenZone(d), eventDatetime := w.parseClock(d.clock.value)))
            && (q == ZoneQuestion(TimezoneAndDeadline) ==>
                  ChosenZone(d).Some? && d.clock.Some? && b == a.(timezone := ChosenZone(d), deadline := w.parseClock(d.clock.value)))
            && (q == ClockQuestion(DatetimeUnresolved) ==> d.override.Some? && b == a.(eventDatetime := w.parseClock(d.override.value)))
            && (q == ClockQuestion(DeadlineUnresolved) ==> d.override.Some? && b == a.(deadline := w.parseClock(d.override.value)))
            && (q == ReviewRequest(ApplicationReview, ExtractionNeedsReview, {Accept, Ignore}) ==> b == a)
  {
  }

  /** Each identity question records the pick, or the wish for something new, and nothing else. */
  lemma PickRecorded(w: World, company: CompanyEvidence, applications: set<ApplicationId>, events: set<EventId>, reason: string, d: Decision, a: Answers)
    ensures d.choice.PickCompany? ==> Answered(w, CompanyQuestion(company), d, ValidateStage, a) == a.(company := Some(d.choice.company))
    ensures d.choice == CreateNew ==> Answered(w, CompanyQuestion(company), d, ValidateStage, a) == a.(forceCreate := true)
    ensures d.choice.PickApplication? ==>
              Answered(w, ApplicationQuestion(applications, reason), d, ApplicationStage, a) == a.(application := Some(d.choice.application))
    ensures d.choice == CreateNew ==> Answered(w, ApplicationQuestion(applications, reason), d, ApplicationStage, a) == a.(forceCreate := true)
    ensures d.choice.PickEvent? ==> Answered(w, EventQuestion(events, reason), d, EventStage, a) == a.(event := Some(d.choice.event))
    ensures d.choice == TreatAsNew ==> Answered(w, EventQuestion(events, reason), d, EventStage, a) == a.(treatAsNew := true)
    ensures d.choice == ApplyProposedUpdate ==> Answered(w, CalendarQuestion(reason), d, CalendarStage, a) == a.(replaceMissing := true)
    ensures d.choice == SkipCalendarUpdate ==> Answered(w, CalendarQuestion(reason), d, CalendarStage, a) == a.(skipCalendar := true)
  {
  }

  // ---------- What the evidence says ----------

  /** A time in the evidence: the human's clock if there is one, else the email's, in the human's zone if
      there is one, else in its own. */
  predicate TimeSaid(w: World, answered: Option<DateTime>, extracted: Option<DateTime>, zone: Option<string>, said: Option<Instant>) {
    var d := if answered.Some? then answered else extracted;
    if d.None? then said.None?
    else if zone.Some? then said == Some(w.instant(d.value.clock, zone.value))
    else d.value.zone.Some? && said == Some(w.instant(d.value.clock, d.value.zone.value))
  }

  predicate TextSaid(w: World, text: Option<string>, said: Option<Text>) {
    if text.None? then said.None? else said == Some(Text(text.value, w.normalize(text.value)))
  }

  lemma EvidenceSays(w: World, source: int, r: WorkflowResult, a: Answers, e: Evidence)
    requires DomainEvidence(w, source, r, a) == Ok(e)
    ensures var x := r.extraction;
            && e.source == source && e.eventType == x.eventType && e.rawCompanyName == x.companyRaw
            && e.roleName == x.roleRaw && e.roleNormalized == r.roleNormalized
            && e.companyId == (if a.company.Some? then a.company else if r.company.Some? then r.company.value.id else None)
            && TextSaid(w, x.interviewRound, e.round) && TextSaid(w, x.actionText, e.actionText)
            && e.actionRequired == x.actionRequired && e.actionLinkRef == x.actionLinkRef
            && e.sourceDatetimeText == x.sourceDatetimeText && e.sourceDeadlineText == x.sourceDeadlineText
            && e.timezone == (if a.timezone.Some? then a.timezone else if x.timezoneExplicit then x.timezoneText else None)
            && TimeSaid(w, a.eventDatetime, x.eventDatetime, a.timezone, e.eventAt)
            && TimeSaid(w, a.deadline, x.deadline, a.timezone, e.deadline)
  {
  }

  /** Only the answers about times and company reach the evidence. */
  lemma SameEvidence(w: World, source: int, r: WorkflowResult, a: Answers, b: Answers)
    requires SameTimes(a, b) && a.company == b.company
    ensures DomainEvidence(w, source, r, a) == DomainEvidence(w, source, r, b)
  {
  }

  /** A picked company is the company of the evidence. */
  lemma PickedCompany(w: World, source: int, r: WorkflowResult, company: CompanyEvidence, d: Decision, a: Answers, e: Evidence)
    requires d.choice.PickCompany? && DomainEvidence(w, source, r, Answered(w, CompanyQuestion(company), d, ValidateStage, a)) == Ok(e)
    ensures e.companyId == Some(d.choice.company)
  {
    EvidenceSays(w, source, r, Answered(w, CompanyQuestion(company), d, ValidateStage, a), e);
  }

  // ---------- What the run does next ----------

  /** The evidence of a state. */
  function EvidenceOf(w: World, s: State): Result<Evidence>
    requires s.result.Some?
  {
    DomainEvidence(w, s.source, s.result.value, s.answers)
  }

  /** `s` is the question that application resolution asked from `before` over `store`. */
  ghost predicate AskedApplication(w: World, before: State, store: Store, s: State) {
    && StateInv(w, before) && before.node == ResolveApplicationNode
    && s == StepApplication(w, before, store) && s.node == RequestReview
  }

  lemma ApplicationAsked(w: World, before: State, store: Store, s: State)
    requires AskedApplication(w, before, store, s)
    ensures before.result.Some? && EvidenceOf(w, before).Ok? && s.result == before.result && s.answers == before.answers
    ensures s.source == before.source && s.resume == ApplicationStage && before.answers.application.None? && !before.answers.forceCreate
    ensures var e := EvidenceOf(w, before).value;
            var r := ResolveApplication(store, e, None, false);
            r.Ok? && r.value.Review? && s.request == Some(ApplicationQuestion(r.value.candidates, r.value.reason)) && Unlinked(store, e)
  {
    VettedIn(w, before);
    var e := EvidenceOf(w, before);
    if e.Ok? {
      var r := ResolveApplication(store, e.value, before.answers.application, before.answers.forceCreate);
      if r.Ok? && r.value.Review? { ReviewedOnce(store, e.value, before.answers.application, before.answers.forceCreate); }
    }
  }

  /** Resolution that asks nothing goes on to the events. */
  lemma ApplicationTaken(w: World, s: State, store: Store, e: Evidence, r: ApplicationResolution)
    requires s.result.Some? && EvidenceOf(w, s) == Ok(e) && !r.Review?
    requires ResolveApplication(store, e, s.answers.application, s.answers.forceCreate) == Ok(r)
    ensures StepApplication(w, s, store) == Onward(s.(application := Some(r)), ResolveExistingEvent)
  {
  }

  lemma EventTaken(w: World, s: State, store: Store, e: Evidence, r: EventResolution)
    requires s.result.Some? && s.application.Some? && !s.application.value.Review? && EvidenceOf(w, s) == Ok(e) && !r.ReviewEvent?
    requires ResolveEvent(store, e, s.application.value.id, s.answers.event, s.answers.treatAsNew) == Ok(r)
    ensures StepEvent(w, s, store) == Onward(s.(event := Some(r)), PlanStateTransition)
  {
  }

  /** Resolving again over the same database: a picked application is the run's application. */
  lemma PickedApplicationTaken(w: World, before: State, store: Store, s: State, d: Decision)
    requires AskedApplication(w, before, store, s) && ValidDecision(w, s.request.value, d) && d.choice.PickApplication?
    ensures var next := StepApplication(w, StepReview(w, s, d), store);
            && next.node == ResolveExistingEvent && next.application.Some? && next.application.value.Existing?
            && next.application.value.id == d.choice.application && d.choice.application in store.applications
            && next.application.value.status == store.applications[d.choice.application].status
  {
    ApplicationAsked(w, before, store, s);
    PickedApplicationGoes(w, s, store, d, EvidenceOf(w, before).value);
  }

  /** Waiting for the answer to the question application resolution asks about this evidence. */
  ghost predicate WaitsForApplication(w: World, s: State, store: Store, e: Evidence) {
    var r := ResolveApplication(store, e, None, false);
    && s.resume == ApplicationStage && s.result.Some? && EvidenceOf(w, s) == Ok(e)
    && s.answers.application.None? && !s.answers.forceCreate && Unlinked(store, e)
    && r.Ok? && r.value.Review? && s.request == Some(ApplicationQuestion(r.value.candidates, r.value.reason))
  }

  lemma PickedApplicationGoes(w: World, s: State, store: Store, d: Decision, e: Evidence)
    requires WaitsForApplication(w, s, store, e) && ValidDecision(w, s.request.value, d) && d.choice.PickApplication?
    ensures var next := StepApplication(w, StepReview(w, s, d), store);
            && next.node == ResolveExistingEvent && next.application.Some? && next.application.value.Existing?
            && next.application.value.id == d.choice.application && d.choice.application in store.applications
            && next.application.value.status == store.applications[d.choice.application].status
  {
    var a := s.answers.(application := Some(d.choice.application));
    UndirectedApplication(store, e);
    PickedApplication(store, e, d.choice.application, false);
    SameEvidence(w, s.source, s.result.value, s.answers, a);
    ReviewAnswered(w, s, d, a);
    ApplicationTaken(w, StepReview(w, s, d), store, e, ResolveApplication(store, e, Some(d.choice.application), false).value);
  }

  /** The state after an answer that records `a`. */
  lemma ReviewAnswered(w: World, s: State, d: Decision, a: Answers)
    requires s.request.Some? && ValidDecision(w, s.request.value, d) && d.choice != Ignore
    requires a == Answered(w, s.request.value, d, s.resume, s.answers)
    ensures StepReview(w, s, d) == Resumed(s, a, s.reasons + Settled(s.request.value.reason))
  {
  }

  /** A human's wish for a new application makes one of the email's own. */
  lemma NewApplicationTaken(w: World, before: State, store: Store, s: State, d: Decision)
    requires AskedApplication(w, before, store, s) && ValidDecision(w, s.request.value, d) && d.choice == CreateNew
    ensures var next := StepApplication(w, StepReview(w, s, d), store);
            && next.node == ResolveExistingEvent && next.application.Some? && next.application.value.Create?
            && next.application.value.id == NewApplicationId(s.source) && next.application.value.status == ApplicationStatus.Unknown
  {
    ApplicationAsked(w, before, store, s);
    NewApplicationGoes(w, s, store, d, EvidenceOf(w, before).value);
  }

  lemma NewApplicationGoes(w: World, s: State, store: Store, d: Decision, e: Evidence)
    requires WaitsForApplication(w, s, store, e) && ValidDecision(w, s.request.value, d) && d.choice == CreateNew
    ensures var next := StepApplication(w, StepReview(w, s, d), store);
            && next.node == ResolveExistingEvent && next.application.Some? && next.application.value.Create?
            && next.application.value.id == NewApplicationId(s.source) && next.application.value.status == ApplicationStatus.Unknown
  {
    var a := s.answers.(forceCreate := true);
    ForcedApplication(store, e);
    SameEvidence(w, s.source, s.result.value, s.answers, a);
    EvidenceSays(w, s.source, s.result.value, s.answers, e);
    ReviewAnswered(w, s, d, a);
    ApplicationTaken(w, StepReview(w, s, d), store, e, ResolveApplication(store, e, None, true).value);
  }

  /** The same wish at the company question, when resolution comes over a database where the email is not linked. */
  lemma ForcedCreateTaken(w: World, s: State, store: Store)
    requires s.node == ResolveApplicationNode && s.result.Some? && EvidenceOf(w, s).Ok?
    requires s.answers.forceCreate && s.answers.application.None? && Unlinked(store, EvidenceOf(w, s).value)
    ensures var next := StepApplication(w, s, store);
            && next.node == ResolveExistingEvent && next.application.Some? && next.application.value.Create?
            && next.application.value.id == NewApplicationId(s.source)
  {
    ForcedApplication(store, EvidenceOf(w, s).value);
    EvidenceSays(w, s.source, s.result.value, s.answers, EvidenceOf(w, s).value);
  }

  ghost predicate AskedEvent(w: World, before: State, store: Store, s: State) {
    && StateInv(w, before) && before.node == ResolveExistingEvent
    && s == StepEvent(w, before, store) && s.node == RequestReview
  }

  lemma EventAsked(w: World, before: State, store: Store, s: State)
    requires AskedEvent(w, before, store, s)
    ensures before.result.Some? && before.application.Some? && !before.application.value.Review? && EvidenceOf(w, before).Ok?
    ensures s.result == before.result && s.answers == before.answers && s.source == before.source && s.application == before.application
    ensures s.resume == EventStage && before.answers.event.None? && !before.answers.treatAsNew
    ensures var e := EvidenceOf(w, before).value;
            var r := ResolveEvent(store, e, before.application.value.id, None, false);
            r.Ok? && r.value.ReviewEvent? && s.request == Some(EventQuestion(r.value.candidates, r.value.reason))
  {
    VettedIn(w, before);
    var e := EvidenceOf(w, before);
    if e.Ok? { EventAskedOnce(store, e.value, before.application.value.id, before.answers.event, before.answers.treatAsNew); }
  }

  /** Only a reschedule asks about events, and offers what it may be about. */
  lemma EventAskedFor(store: Store, e: Evidence, a: ApplicationId)
    requires ResolveEvent(store, e, a, None, false).Ok? && ResolveEvent(store, e, a, None, false).value.ReviewEvent?
    ensures e.eventType == InterviewReschedule && ResolveEvent(store, e, a, None, false).value.candidates == Targets(store, a, e)
  {
    if e.eventType == InterviewReschedule { RescheduleTarget(store, e, a, None, false); }
  }

  /** Waiting for the answer to the question event resolution asks about this evidence. */
  ghost predicate WaitsForEvent(w: World, s: State, store: Store, e: Evidence) {
    && s.resume == EventStage && s.result.Some? && EvidenceOf(w, s) == Ok(e) && s.answers.event.None? && !s.answers.treatAsNew
    && s.application.Some? && !s.application.value.Review?
    && (var r := ResolveEvent(store, e, s.application.value.id, None, false);
        r.Ok? && r.value.ReviewEvent? && s.request == Some(EventQuestion(r.value.candidates, r.value.reason)))
  }

  /** A picked interview is the one the run reschedules. */
  lemma PickedEventTaken(w: World, before: State, store: Store, s: State, d: Decision)
    requires AskedEvent(w, before, store, s) && ValidDecision(w, s.request.value, d) && d.choice.PickEvent?
    ensures var next := StepEvent(w, StepReview(w, s, d), store);
            && next.node == PlanStateTransition && next.event.Some? && next.event.value.RescheduleEvent?
            && next.event.value.id == d.choice.event
  {
    EventAsked(w, before, store, s);
    PickedEventGoes(w, s, store, d, EvidenceOf(w, before).value);
  }

  lemma PickedEventGoes(w: World, s: State, store: Store, d: Decision, e: Evidence)
    requires WaitsForEvent(w, s, store, e) && ValidDecision(w, s.request.value, d) && d.choice.PickEvent?
    ensures var next := StepEvent(w, StepReview(w, s, d), store);
            && next.node == PlanStateTransition && next.event.Some? && next.event.value.RescheduleEvent?
            && next.event.value.id == d.choice.event
  {
    var a := s.answers.(event := Some(d.choice.event));
    EventAskedFor(store, e, s.application.value.id);
    RescheduleTarget(store, e, s.application.value.id, Some(d.choice.event), false);
    SameEvidence(w, s.source, s.result.value, s.answers, a);
    ReviewAnswered(w, s, d, a);
    EventTaken(w, StepReview(w, s, d), store, e, ResolveEvent(store, e, s.application.value.id, Some(d.choice.event), false).value);
  }

  lemma NewEventTaken(w: World, before: State, store: Store, s: State, d: Decision)
    requires AskedEvent(w, before, store, s) && ValidDecision(w, s.request.value, d) && d.choice == TreatAsNew
    ensures var next := StepEvent(w, StepReview(w, s, d), store);
            next.node == PlanStateTransition && next.event.Some? && next.event.value.CreateEvent?
  {
    EventAsked(w, before, store, s);
    var e := EvidenceOf(w, before).value;
    var a := s.answers.(treatAsNew := true);
    EventAskedFor(store, e, before.application.value.id);
    RescheduleTarget(store, e, before.application.value.id, None, true);
    SameEvidence(w, s.source, s.result.value, s.answers, a);
    ReviewAnswered(w, s, d, a);
    EventTaken(w, StepReview(w, s, d), store, e, ResolveEvent(store, e, before.application.value.id, None, true).value);
  }

  /** The two calendar choices set their own flag of the next request, and change nothing else of it. */
  lemma CalendarChoiceTaken(w: World, s: State, d: Decision)
    requires StateInv(w, s) && s.node == RequestReview && s.resume == CalendarStage
    requires ValidDecision(w, s.request.value, d) && d.choice != Ignore
    ensures var next := StepReview(w, s, d);
            && next.node == SyncCalendar && d.choice in {ApplyProposedUpdate, SkipCalendarUpdate}
            && CalendarRequest(next) == Cal.Request(s.account, s.source, s.eventId,
                                                    s.answers.replaceMissing || d.choice == ApplyProposedUpdate,
                                                    s.answers.skipCalendar || d.choice == SkipCalendarUpdate)
  {
    VettedIn(w, s);
  }

  // ---------- Where the nodes lead ----------

  /** A rejected extraction fails, an irrelevant one is ignored, an open question is asked, and only then
      resolution begins. */
  lemma ValidationLeads(s: State)
    requires s.result.Some?
    ensures var r, next := s.result.value, StepValidate(s);
            if r.validation.status == InvalidVerdict then next.node == FinalizeProcessing && next.status == Failed
            else if !r.extraction.relevant then next.node == MarkIgnored
            else if NextReview(r, s.reasons).Some? then
              next.node == RequestReview && next.request == NextReview(r, s.reasons) && next.resume == ValidateStage
            else next.node == ResolveApplicationNode
  {
  }

  /** Planning raises exactly when the times are not resolved, and else plans for the run's own application
      and event. */
  lemma PlanningLeads(w: World, s: State)
    requires StateInv(w, s) && s.node == PlanStateTransition && EvidenceOf(w, s).Ok?
    ensures var next := StepPlan(w, s);
            if TimesResolved(EvidenceOf(w, s).value) then
              next.node == PersistDomainChanges && next.plan.Some?
              && Ok(next.plan.value) == PlanTransition(EvidenceOf(w, s).value, s.application.value, s.event.value)
            else next.node == Raised
  {
    VettedIn(w, s);
    var p := PlanTransition(EvidenceOf(w, s).value, s.application.value, s.event.value);
    WrittenExactly(EvidenceOf(w, s).value, s.application.value, s.event.value, p.value);
  }

  /** After the write the calendar is synchronized; a question it has is asked once, and then counts as skipped. */
  lemma CalendarLeads(s: State, stored: Result<(Store, MutationResult)>, result: Result<Cal.SyncResult>)
    ensures stored.Ok? ==> Persisted(s, stored).node == SyncCalendar && Persisted(s, stored).eventId == stored.value.1.eventId
    ensures stored.Err? ==> Persisted(s, stored).node == Raised
    ensures var next := StepCalendar(s, result);
            if result.Err? then next.node == Raised
            else if result.value.operation == Cal.ReviewRequired && CalendarReason(result.value.reason) !in s.reasons then
              next.node == RequestReview && next.request == Some(CalendarQuestion(result.value.reason)) && next.resume == CalendarStage
            else next.node == FinalizeProcessing
  {
  }

  // ---------- What the end of a run tells ----------

  /** Some step of this run synchronized the calendar without raising. */
  ghost predicate CalendarReached(w: World, t: Trace, inputs: seq<Input>)
    decreases |inputs|
  {
    inputs != [] &&
    ((t.state.node == SyncCalendar && !inputs[0].raises && CalendarResult(t.state, inputs[0]).Ok?)
     || CalendarReached(w, Observe(w, t, inputs[0]), inputs[1..]))
  }

  function CalendarResult(s: State, i: Input): Result<Cal.SyncResult> {
    Cal.Sync(i.planner, i.calendarEnabled, i.calendar, CalendarRequest(s), i.answer).result
  }

  /** On the way to COMPLETED, past the calendar. */
  predicate Done(s: State) {
    (s.node == FinalizeProcessing && s.status != Failed) || (s.node == Finished && s.status == Completed)
  }

  predicate PastWrite(s: State) {
    s.node == SyncCalendar || (s.node == RequestReview && s.resume == CalendarStage) || Done(s)
  }

  predicate FailedTells(s: State) {
    s.status == Failed ==>
      (s.node == FinalizeProcessing || s.node == Finished || s.node == Raised) && s.result.Some? && s.result.value.validation.status == InvalidVerdict
  }

  lemma StepFailedTells(w: World, s: State, i: Input)
    requires FailedTells(s)
    ensures FailedTells(Step(w, s, i))
  {
    if s.node == PersistDomainChanges && !i.raises {
      PersistTells(s, if s.plan.None? then Err("") else Apply(i.store, s.plan.value));
    }
  }

  lemma StepPastWrite(w: World, s: State, i: Input)
    ensures PastWrite(Step(w, s, i)) ==> PastWrite(s) || s.node == PersistDomainChanges
  {
  }

  lemma StepDone(w: World, s: State, i: Input)
    requires FailedTells(s)
    ensures Done(Step(w, s, i)) ==> Done(s) || (s.node == SyncCalendar && !i.raises && CalendarResult(s, i).Ok?)
  {
    if s.node == PersistDomainChanges && !i.raises {
      PersistTells(s, if s.plan.None? then Err("") else Apply(i.store, s.plan.value));
    }
  }

  lemma PersistTells(s: State, r: Result<(Store, MutationResult)>)
    requires FailedTells(s) && s.node == PersistDomainChanges
    ensures FailedTells(Persisted(s, r)) && FailedTells(Fail(s)) && !Done(Persisted(s, r)) && !Done(Fail(s))
  {
  }

  lemma {:induction false} RunTells(w: World, t: Trace, inputs: seq<Input>)
    requires ValidWorld(w) && AllHonest(inputs) && Inv(w, t) && FailedTells(t.state) && (PastWrite(t.state) ==> |t.writes| == 1)
    ensures FailedTells(Run(w, t, inputs).state)
    ensures PastWrite(Run(w, t, inputs).state) ==> |Run(w, t, inputs).writes| == 1
    ensures Done(Run(w, t, inputs).state) ==> Done(t.state) || CalendarReached(w, t, inputs)
    decreases |inputs|
  {
    if inputs != [] {
      assert Honest(inputs[0]);
      ObserveTells(w, t, inputs[0]);
      RunTells(w, Observe(w, t, inputs[0]), inputs[1..]);
    }
  }

  lemma ObserveTells(w: World, t: Trace, i: Input)
    requires ValidWorld(w) && Honest(i) && Inv(w, t) && FailedTells(t.state) && (PastWrite(t.state) ==> |t.writes| == 1)
    ensures var t' := Observe(w, t, i);
            && Inv(w, t') && FailedTells(t'.state) && (PastWrite(t'.state) ==> |t'.writes| == 1)
            && (Done(t'.state) ==> Done(t.state) || (t.state.node == SyncCalendar && !i.raises && CalendarResult(t.state, i).Ok?))
  {
    ObserveKeeps(w, t, i);
    StepFailedTells(w, t.state, i);
    StepPastWrite(w, t.state, i);
    StepDone(w, t.state, i);
  }

  /** COMPLETED means written exactly once and then synchronized with the calendar; FAILED means rejected
      by the validator. */
  lemma OutcomeTells(w: World, source: int, account: int, inputs: seq<Input>)
    requires ValidWorld(w) && AllHonest(inputs)
    ensures var t := Run(w, Begin(source, account), inputs);
            && (t.state.status == Completed ==> |t.writes| == 1 && CalendarReached(w, Begin(source, account), inputs))
            && (t.state.status == Failed ==> t.state.result.Some? && t.state.result.value.validation.status == InvalidVerdict)
  {
    BeginKeeps(w, source, account);
    RunTells(w, Begin(source, account), inputs);
    CompletedIsDone(w, source, account, inputs);
  }

  lemma CompletedIsDone(w: World, source: int, account: int, inputs: seq<Input>)
    ensures Run(w, Begin(source, account), inputs).state.status == Completed ==> Run(w, Begin(source, account), inputs).state.node == Finished
  {
    OnlyEndCompletes(w, Begin(source, account), inputs);
  }

  lemma {:induction false} OnlyEndCompletes(w: World, t: Trace, inputs: seq<Input>)
    requires t.state.status == Completed ==> t.state.node == Finished
    ensures Run(w, t, inputs).state.status == Completed ==> Run(w, t, inputs).state.node == Finished
    decreases |inputs|
  {
    if inputs != [] {
      StepCompletes(w, t.state, inputs[0]);
      OnlyEndCompletes(w, Observe(w, t, inputs[0]), inputs[1..]);
    }
  }

  lemma StepCompletes(w: World, s: State, i: Input)
    requires s.status == Completed ==> s.node == Finished
    ensures Step(w, s, i).status == Completed ==> Step(w, s, i).node == Finished
  {
  }

  /** The state after `k` nodes of a run that does not raise. */
  predicate EntryAt(s: State, inputs: seq<Input>, k: nat)
    requires k <= 6 <= |inputs|
  {
    if k <= 3 then s.node == [LoadSourceEmail, NormalizeEmail, ExtractActionLinks, PrefilterRecruitment][k] && s.status == Running && s.result.None?
    else if inputs[3].unlikely then s.result.None? && (if k == 4 then s.node == MarkIgnored else s.node == Finished && s.status == Ignored)
    else if k <= 5 then s.node == [SanitizeContent, ExtractRecruitmentData][k - 4] && s.status == Running && s.result.None?
    else s.node == ValidateExtraction && s.status == Running && s.result == Some(inputs[5].result)
  }

  lemma EntryStep(w: World, s: State, inputs: seq<Input>, k: nat)
    requires k < 6 <= |inputs| && !inputs[k].raises && EntryAt(s, inputs, k)
    ensures EntryAt(Step(w, s, inputs[k]), inputs, k + 1)
  {
  }

  lemma {:induction false} EntryFrom(w: World, t: Trace, inputs: seq<Input>, k: nat)
    requires k <= 6 <= |inputs| && (forall j :: 0 <= j < 6 ==> !inputs[j].raises) && EntryAt(t.state, inputs, k)
    ensures EntryAt(Run(w, t, inputs[k..6]).state, inputs, 6)
    decreases 6 - k
  {
    if k < 6 {
      EntryStep(w, t.state, inputs, k);
      ObservedState(w, t, inputs[k]);
      EntryFrom(w, Observe(w, t, inputs[k]), inputs, k + 1);
      assert inputs[k..6][1..] == inputs[k + 1..6];
    }
  }

  /** The first six nodes: an unlikely email is not read by the model, and the model's answer is what the
      validator sees. */
  lemma EntryLeads(w: World, source: int, account: int, inputs: seq<Input>)
    requires |inputs| >= 6 && forall k :: 0 <= k < 6 ==> !inputs[k].raises
    ensures var s := Run(w, Begin(source, account), inputs[..6]).state;
            if inputs[3].unlikely then s.node == Finished && s.status == Ignored && s.result.None?
            else s.node == ValidateExtraction && s.status == Running && s.result == Some(inputs[5].result)
  {
    EntryFrom(w, Begin(source, account), inputs, 0);
  }

  /** This step decides that the email is ignored: an unlikely email, an accepted extraction that is
      irrelevant, or the answer of a human. */
  predicate Ignores(w: World, s: State, i: Input) {
    && !i.raises
    && ((s.node == PrefilterRecruitment && i.unlikely)
        || (s.node == ValidateExtraction && s.result.Some? && s.result.value.validation.status != InvalidVerdict
            && !s.result.value.extraction.relevant)
        || (s.node == RequestReview && s.request.Some? && ValidDecision(w, s.request.value, i.decision) && i.decision.choice == Ignore))
  }

  ghost predicate IgnoredOn(w: World, t: Trace, inputs: seq<Input>)
    decreases |inputs|
  {
    inputs != [] && (Ignores(w, t.state, inputs[0]) || IgnoredOn(w, Observe(w, t, inputs[0]), inputs[1..]))
  }

  predicate OnIgnored(s: State) {
    s.node == MarkIgnored || (s.node == Finished && s.status == Ignored)
  }

  /** The status that is shown fits the node. */
  predicate StatusFits(s: State) {
    && (s.node == RequestReview ==> s.status == NeedsReview)
    && (s.status == NeedsReview ==> s.node == RequestReview || s.node == Raised)
    && (s.node == Finished ==> s.status == Completed || s.status == Ignored || s.status == Failed)
  }

  lemma StepFits(w: World, s: State, i: Input)
    requires StatusFits(s)
    ensures StatusFits(Step(w, s, i))
  {
    if s.node == PersistDomainChanges && !i.raises {
      PersistFits(s, if s.plan.None? then Err("") else Apply(i.store, s.plan.value));
    }
  }

  lemma PersistFits(s: State, r: Result<(Store, MutationResult)>)
    requires StatusFits(s)
    ensures StatusFits(Persisted(s, r)) && StatusFits(Fail(s)) && !OnIgnored(Persisted(s, r)) && !OnIgnored(Fail(s))
  {
  }

  lemma StepIgnores(w: World, s: State, i: Input)
    requires StatusFits(s)
    ensures OnIgnored(Step(w, s, i)) ==> OnIgnored(s) || Ignores(w, s, i)
    ensures OnIgnored(s) || s.node == Raised || Ignores(w, s, i) ==> OnIgnored(Step(w, s, i)) || Step(w, s, i).node == Raised
  {
    if s.node == PersistDomainChanges && !i.raises {
      PersistFits(s, if s.plan.None? then Err("") else Apply(i.store, s.plan.value));
    }
  }

  lemma {:induction false} RunIgnores(w: World, t: Trace, inputs: seq<Input>)
    requires StatusFits(t.state)
    ensures var s := Run(w, t, inputs).state;
            && StatusFits(s)
            && (OnIgnored(s) ==> OnIgnored(t.state) || IgnoredOn(w, t, inputs))
            && (OnIgnored(t.state) || t.state.node == Raised || IgnoredOn(w, t, inputs) ==> OnIgnored(s) || s.node == Raised)
    decreases |inputs|
  {
    if inputs != [] {
      StepFits(w, t.state, inputs[0]);
      StepIgnores(w, t.state, inputs[0]);
      ObservedState(w, t, inputs[0]);
      RunIgnores(w, Observe(w, t, inputs[0]), inputs[1..]);
    }
  }

  lemma ObservedState(w: World, t: Trace, i: Input)
    ensures Observe(w, t, i).state == Step(w, t.state, i)
  {
  }

  /** A run that has not raised is set aside exactly when one of those three decided it, and it shows that
      it waits exactly while a question is open. */
  lemma IgnoredTells(w: World, source: int, account: int, inputs: seq<Input>)
    ensures var s := Run(w, Begin(source, account), inputs).state;
            s.node != Raised ==>
              && (OnIgnored(s) <==> IgnoredOn(w, Begin(source, account), inputs))
              && (s.status == NeedsReview <==> s.node == RequestReview)
              && (s.node == Finished ==> s.status == Completed || s.status == Ignored || s.status == Failed)
  {
    RunIgnores(w, Begin(source, account), inputs);
  }
}
