/** The questions a workflow run asks a human, what the answers do to the evidence, and why the
    questions cover every gap the mutation guard checks. */
module ReviewQuestions {
  import opened Wrappers
  import opened Domain
  import opened Extraction

  // ---------- Contracts ----------

  /** The libraries the workflow calls: zone database, datetime parsing, text normalization. */
  datatype World = World(zoneKnown: string -> bool, parseClock: string -> Option<DateTime>, instant: (int, string) -> int,
                         normalize: string -> string, normalizeRole: string -> Option<string>)

  const LONDON := "Europe/London"
  const SHANGHAI := "Asia/Shanghai"

  ghost predicate ValidWorld(w: World) {
    w.zoneKnown(LONDON) && w.zoneKnown(SHANGHAI) && !w.zoneKnown("")
  }

  /** Each family of reason strings is a constructor: the families never share a string. */
  datatype Reason =
    | DatetimeConflictReason | TimezoneAmbiguity | DatetimeUnresolved | DeadlineUnresolved
    | TimezoneAndDatetime | TimezoneAndDeadline | ExtractionNeedsReview | CompanyReason(status: string)
    | ApplicationReason(text: string) | EventReason(text: string) | CalendarReason(text: string)

  datatype Choice =
    | Zone(name: string) | Other | Ignore | UseExtracted | UseOverride | Accept | CreateNew | TreatAsNew
    | PickCompany(company: int) | PickApplication(application: ApplicationId) | PickEvent(event: EventId)
    | ApplyProposedUpdate | SkipCalendarUpdate

  datatype ReviewType = TimezoneReview | DatetimeReview | ApplicationReview | RescheduleReview | CalendarReview

  datatype ReviewRequest = ReviewRequest(reviewType: ReviewType, reason: Reason, choices: set<Choice>)

  datatype Decision = Decision(choice: Choice, override: Option<string>, clock: Option<string>)

  datatype CompanyEvidence = CompanyEvidence(id: Option<int>, status: string, candidates: set<int>)

  datatype WorkflowResult = WorkflowResult(extraction: Extraction, validation: Validation,
                                           company: Option<CompanyEvidence>, roleNormalized: Option<string>)

  /** What humans have answered so far. */
  datatype Answers = Answers(timezone: Option<string>, eventDatetime: Option<DateTime>, deadline: Option<DateTime>,
                             company: Option<int>, forceCreate: bool, application: Option<ApplicationId>,
                             event: Option<EventId>, treatAsNew: bool, replaceMissing: bool, skipCalendar: bool)

  const NO_ANSWERS := Answers(None, None, None, None, false, None, None, false, false, false)

  predicate IsCombined(r: Reason) {
    r == TimezoneAndDatetime || r == TimezoneAndDeadline
  }

  predicate ZoneGiven(w: World, d: Decision) {
    if d.choice == Other then d.override.Some? && w.zoneKnown(d.override.value) else d.override.None?
  }

  predicate ValidDecision(w: World, r: ReviewRequest, d: Decision) {
    && d.choice in r.choices
    && if IsCombined(r.reason) then
         if d.choice == Ignore then d.override.None? && d.clock.None?
         else d.clock.Some? && w.parseClock(d.clock.value).Some? && ZoneGiven(w, d)
       else
         && d.clock.None?
         && if r.reviewType == DatetimeReview && d.choice == UseOverride
            then d.override.Some? && w.parseClock(d.override.value).Some?
            else ZoneGiven(w, d)
  }

  // ---------- Questions ----------

  const ZONE_CHOICES := {Zone(LONDON), Zone(SHANGHAI), Other, Ignore}

  function ZoneQuestion(reason: Reason): ReviewRequest {
    ReviewRequest(TimezoneReview, reason, ZONE_CHOICES)
  }

  function ClockQuestion(reason: Reason): ReviewRequest {
    ReviewRequest(DatetimeReview, reason, {UseOverride, Ignore})
  }

  function CompanyQuestion(company: CompanyEvidence): ReviewRequest {
    ReviewRequest(ApplicationReview, CompanyReason(company.status),
                  (set c | c in company.candidates :: PickCompany(c)) + {CreateNew, Ignore})
  }

  function ApplicationQuestion(candidates: set<ApplicationId>, reason: string): ReviewRequest {
    ReviewRequest(ApplicationReview, ApplicationReason(reason),
                  (set c | c in candidates :: PickApplication(c)) + {CreateNew, Ignore})
  }

  function EventQuestion(candidates: set<EventId>, reason: string): ReviewRequest {
    ReviewRequest(RescheduleReview, EventReason(reason), (set c | c in candidates :: PickEvent(c)) + {TreatAsNew, Ignore})
  }

  /** Only a missing linked event has a remedy to apply. */
  function CalendarQuestion(reason: string): ReviewRequest {
    ReviewRequest(CalendarReview, CalendarReason(reason),
                  if reason == "linked_calendar_event_missing" then {ApplyProposedUpdate, SkipCalendarUpdate, Ignore}
                  else {SkipCalendarUpdate, Ignore})
  }

  /** What the issues of a validation leave open. */
  datatype Gaps = Gaps(conflict: bool, timezone: bool, datetime: bool, deadline: bool, other: bool)

  predicate IsTimeGap(c: Code) {
    c == TimezoneConflict || c == TimezoneAmbiguous || c == DatetimeUnresolvedCode || c == DeadlineUnresolvedCode
  }

  function GapsOf(v: Validation): Gaps {
    Gaps(HasCode(v.issues, TimezoneConflict), HasCode(v.issues, TimezoneAmbiguous),
         HasCode(v.issues, DatetimeUnresolvedCode), HasCode(v.issues, DeadlineUnresolvedCode),
         v.status == NeedsReviewVerdict && exists i :: 0 <= i < |v.issues| && !IsTimeGap(v.issues[i].code))
  }

  predicate TimezoneReviewed(reasons: set<Reason>) {
    TimezoneAmbiguity in reasons || TimezoneAndDatetime in reasons || TimezoneAndDeadline in reasons
  }

  predicate DatetimeReviewed(reasons: set<Reason>) {
    DatetimeUnresolved in reasons || TimezoneAndDatetime in reasons
  }

  predicate DeadlineReviewed(reasons: set<Reason>) {
    DeadlineUnresolved in reasons || TimezoneAndDeadline in reasons
  }

  function NextTimeQuestion(g: Gaps, reasons: set<Reason>): Option<ReviewRequest> {
    if g.conflict && DatetimeConflictReason !in reasons then
      Some(ReviewRequest(DatetimeReview, DatetimeConflictReason, {UseExtracted, Ignore}))
    else if g.timezone && !TimezoneReviewed(reasons) then
      Some(ZoneQuestion(
        if g.datetime && !DatetimeReviewed(reasons) then TimezoneAndDatetime
        else if g.deadline && !DeadlineReviewed(reasons) then TimezoneAndDeadline
        else TimezoneAmbiguity))
    else if g.datetime && !DatetimeReviewed(reasons) then Some(ClockQuestion(DatetimeUnresolved))
    else if g.deadline && !DeadlineReviewed(reasons) then Some(ClockQuestion(DeadlineUnresolved))
    else None
  }

  function NextReview(r: WorkflowResult, reasons: set<Reason>): Option<ReviewRequest> {
    var g := GapsOf(r.validation);
    var time := NextTimeQuestion(g, reasons);
    if time.Some? then time
    else if g.other && ExtractionNeedsReview !in reasons then
      Some(ReviewRequest(ApplicationReview, ExtractionNeedsReview, {Accept, Ignore}))
    else if r.company.Some? && r.company.value.id.None? && CompanyReason(r.company.value.status) !in reasons then
      Some(CompanyQuestion(r.company.value))
    else None
  }

  function Bit(b: bool): nat {
    if b then 1 else 0
  }

  /** How many time questions are still to come. */
  function TimePending(g: Gaps, reasons: set<Reason>): nat {
    var clocks := Bit(g.datetime && !DatetimeReviewed(reasons)) + Bit(g.deadline && !DeadlineReviewed(reasons));
    Bit(g.conflict && DatetimeConflictReason !in reasons)
    + if g.timezone && !TimezoneReviewed(reasons) && clocks == 0 then 1 else clocks
  }

  /** How many validation questions are still to come. */
  function Pending(r: WorkflowResult, reasons: set<Reason>): nat {
    var g := GapsOf(r.validation);
    TimePending(g, reasons) + Bit(g.other && ExtractionNeedsReview !in reasons)
    + Bit(r.company.Some? && r.company.value.id.None? && CompanyReason(r.company.value.status) !in reasons)
  }

  /** The reasons an answer settles: a combined answer settles both of its halves. */
  function Settled(reason: Reason): set<Reason> {
    if reason == TimezoneAndDatetime then {reason, TimezoneAmbiguity, DatetimeUnresolved}
    else if reason == TimezoneAndDeadline then {reason, TimezoneAmbiguity, DeadlineUnresolved}
    else {reason}
  }

  lemma NextTimeSettles(g: Gaps, reasons: set<Reason>)
    ensures NextTimeQuestion(g, reasons).None? <==> TimePending(g, reasons) == 0
    ensures NextTimeQuestion(g, reasons).Some? ==>
              var reason := NextTimeQuestion(g, reasons).value.reason;
              reason !in reasons && TimePending(g, reasons + Settled(reason)) == TimePending(g, reasons) - 1
    ensures NextTimeQuestion(g, reasons).Some? ==>
              NextTimeQuestion(g, reasons).value.reason != ExtractionNeedsReview && !NextTimeQuestion(g, reasons).value.reason.CompanyReason?
  {
  }

  lemma SettledOther(g: Gaps, reasons: set<Reason>, reason: Reason)
    requires reason == ExtractionNeedsReview || reason.CompanyReason?
    ensures TimePending(g, reasons + {reason}) == TimePending(g, reasons)
  {
  }

  /** The questionnaire ends exactly when nothing is pending; each answer settles exactly one
      question, and no question is asked again. */
  lemma NextReviewSettles(r: WorkflowResult, reasons: set<Reason>)
    ensures NextReview(r, reasons).None? <==> Pending(r, reasons) == 0
    ensures NextReview(r, reasons).Some? ==>
              var reason := NextReview(r, reasons).value.reason;
              reason !in reasons && Pending(r, reasons + Settled(reason)) == Pending(r, reasons) - 1
  {
    var g := GapsOf(r.validation);
    NextTimeSettles(g, reasons);
    if NextTimeQuestion(g, reasons).None? && NextReview(r, reasons).Some? {
      SettledOther(g, reasons, NextReview(r, reasons).value.reason);
    }
  }

  /** At most four questions when the validation is the validator's own. */
  lemma AtMostFour(r: WorkflowResult, request: Request, threshold: real)
    requires Validates(r.extraction, request, threshold, r.validation) && r.validation.status != InvalidVerdict
    ensures Pending(r, {}) <= 4
  {
    GapsAreReported(r.extraction, request, threshold, r.validation);
    AcceptedTimesCoherent(r.extraction, request, threshold, r.validation);
  }

  /** The conflict question is never asked: a timezone conflict rejects the extraction. */
  lemma ConflictNeverAsked(r: WorkflowResult, request: Request, threshold: real, reasons: set<Reason>)
    requires Validates(r.extraction, request, threshold, r.validation) && r.validation.status != InvalidVerdict
    ensures NextReview(r, reasons).Some? ==> NextReview(r, reasons).value.reason != DatetimeConflictReason
  {
    GapsAreReported(r.extraction, request, threshold, r.validation);
    AcceptedTimesCoherent(r.extraction, request, threshold, r.validation);
  }

  // ---------- Answers ----------

  datatype Stage = ValidateStage | ApplicationStage | EventStage | CalendarStage

  /** What a valid decision other than "ignore" records. */
  function Answered(w: World, r: ReviewRequest, d: Decision, resume: Stage, a: Answers): Answers {
    match r.reviewType
    case TimezoneReview =>
      var zoned := a.(timezone := if d.choice == Other then d.override else if d.choice.Zone? then Some(d.choice.name) else None);
      if r.reason == TimezoneAndDeadline && d.clock.Some? then zoned.(deadline := w.parseClock(d.clock.value))
      else if r.reason == TimezoneAndDatetime && d.clock.Some? then zoned.(eventDatetime := w.parseClock(d.clock.value))
      else zoned
    case DatetimeReview =>
      if d.choice != UseOverride || d.override.None? then a
      else if r.reason == DeadlineUnresolved then a.(deadline := w.parseClock(d.override.value))
      else a.(eventDatetime := w.parseClock(d.override.value))
    case ApplicationReview =>
      if r.reason == ExtractionNeedsReview then a
      else if d.choice == CreateNew then a.(forceCreate := true)
      else if resume == ValidateStage then a.(company := if d.choice.PickCompany? then Some(d.choice.company) else None)
      else a.(application := if d.choice.PickApplication? then Some(d.choice.application) else None)
    case RescheduleReview =>
      if d.choice == TreatAsNew then a.(treatAsNew := true)
      else a.(event := if d.choice.PickEvent? then Some(d.choice.event) else None)
    case CalendarReview =>
      if d.choice == ApplyProposedUpdate then a.(replaceMissing := true)
      else if d.choice == SkipCalendarUpdate then a.(skipCalendar := true)
      else a
  }

  // ---------- Evidence ----------

  function Rebound(d: Option<DateTime>, zone: string): Option<DateTime> {
    if d.None? then None else Some(d.value.(zone := Some(zone)))
  }

  function EventTime(r: WorkflowResult, a: Answers): Option<DateTime> {
    var d := if a.eventDatetime.Some? then a.eventDatetime else r.extraction.eventDatetime;
    if a.timezone.Some? then Rebound(d, a.timezone.value) else d
  }

  function DeadlineTime(r: WorkflowResult, a: Answers): Option<DateTime> {
    var d := if a.deadline.Some? then a.deadline else r.extraction.deadline;
    if a.timezone.Some? then Rebound(d, a.timezone.value) else d
  }

  function Timezone(r: WorkflowResult, a: Answers): Option<string> {
    if a.timezone.Some? then a.timezone else if r.extraction.timezoneExplicit then r.extraction.timezoneText else None
  }

  function CompanyId(r: WorkflowResult, a: Answers): Option<int> {
    if a.company.Some? then a.company else if r.company.Some? then r.company.value.id else None
  }

  predicate RoleConsistent(w: World, r: WorkflowResult) {
    if r.extraction.roleRaw.None? then r.roleNormalized.None?
    else r.roleNormalized == w.normalizeRole(r.extraction.roleRaw.value)
  }

  function Normal(w: World, text: Option<string>): Option<Text> {
    if text.None? then None else Some(Text(text.value, w.normalize(text.value)))
  }

  function InstantOf(w: World, d: Option<DateTime>): Option<Instant>
    requires !Naive(d)
  {
    if d.None? then None else Some(w.instant(d.value.clock, d.value.zone.value))
  }

  /** The evidence the domain sees; its constructor rejects naive datetimes. */
  function DomainEvidence(w: World, source: int, r: WorkflowResult, a: Answers): Result<Evidence> {
    var x := r.extraction;
    if a.timezone.Some? && !w.zoneKnown(a.timezone.value) then Err("unknown zone")
    else if Naive(EventTime(r, a)) || Naive(DeadlineTime(r, a)) then Err("evidence datetime must be timezone-aware")
    else if !RoleConsistent(w, r) then Err("role_normalized must use deterministic normalization")
    else
      Ok(Evidence(source, CompanyId(r, a), x.companyRaw, x.roleRaw, r.roleNormalized, x.eventType,
                  Normal(w, x.interviewRound), x.actionRequired, Normal(w, x.actionText), x.actionLinkRef,
                  InstantOf(w, EventTime(r, a)), InstantOf(w, DeadlineTime(r, a)), Timezone(r, a),
                  x.sourceDatetimeText, x.sourceDeadlineText))
  }

  // ---------- Completeness ----------

  /** The answers match the questions settled so far. */
  ghost predicate AnswersMatch(w: World, g: Gaps, a: Answers, reasons: set<Reason>) {
    && (TimezoneReviewed(reasons) ==> a.timezone.Some?)
    && (DatetimeReviewed(reasons) ==> a.eventDatetime.Some?)
    && (DeadlineReviewed(reasons) ==> a.deadline.Some?)
    && (a.timezone.Some? ==> g.timezone && w.zoneKnown(a.timezone.value))
    && (a.eventDatetime.Some? ==> g.datetime)
    && (a.deadline.Some? ==> g.deadline)
  }

  lemma ZoneChosen(w: World, reason: Reason, d: Decision)
    requires ValidWorld(w) && ValidDecision(w, ZoneQuestion(reason), d) && d.choice != Ignore
    ensures if d.choice == Other then d.override.Some? && w.zoneKnown(d.override.value)
            else d.choice.Zone? && w.zoneKnown(d.choice.name)
    ensures IsCombined(reason) ==> d.clock.Some? && w.parseClock(d.clock.value).Some?
  {
  }

  lemma ZoneAnswerMatches(w: World, g: Gaps, a: Answers, reasons: set<Reason>, reason: Reason, d: Decision)
    requires ValidWorld(w) && AnswersMatch(w, g, a, reasons)
    requires NextTimeQuestion(g, reasons) == Some(ZoneQuestion(reason))
    requires ValidDecision(w, ZoneQuestion(reason), d) && d.choice != Ignore
    ensures AnswersMatch(w, g, Answered(w, ZoneQuestion(reason), d, ValidateStage, a), reasons + Settled(reason))
  {
    ZoneChosen(w, reason, d);
  }

  lemma TimeAnswerMatches(w: World, g: Gaps, a: Answers, reasons: set<Reason>, d: Decision)
    requires ValidWorld(w) && AnswersMatch(w, g, a, reasons) && NextTimeQuestion(g, reasons).Some?
    requires ValidDecision(w, NextTimeQuestion(g, reasons).value, d) && d.choice != Ignore
    ensures var q := NextTimeQuestion(g, reasons).value;
            AnswersMatch(w, g, Answered(w, q, d, ValidateStage, a), reasons + Settled(q.reason))
  {
    var q := NextTimeQuestion(g, reasons).value;
    if q.reviewType == TimezoneReview { ZoneAnswerMatches(w, g, a, reasons, q.reason, d); }
  }

  predicate SameTimes(a: Answers, b: Answers) {
    a.timezone == b.timezone && a.eventDatetime == b.eventDatetime && a.deadline == b.deadline
  }

  /** Answers about the company, the application, the event or the calendar leave the times alone. */
  lemma OtherAnswerMatches(w: World, g: Gaps, a: Answers, reasons: set<Reason>, q: ReviewRequest, d: Decision, resume: Stage)
    requires AnswersMatch(w, g, a, reasons)
    requires q.reviewType != TimezoneReview && q.reviewType != DatetimeReview
    requires q.reason == ExtractionNeedsReview || q.reason.CompanyReason? || q.reason.ApplicationReason?
             || q.reason.EventReason? || q.reason.CalendarReason?
    ensures AnswersMatch(w, g, Answered(w, q, d, resume, a), reasons + Settled(q.reason))
  {
    assert SameTimes(a, Answered(w, q, d, resume, a));
  }

  lemma AnswerMatches(w: World, r: WorkflowResult, a: Answers, reasons: set<Reason>, d: Decision)
    requires ValidWorld(w) && AnswersMatch(w, GapsOf(r.validation), a, reasons) && NextReview(r, reasons).Some?
    requires ValidDecision(w, NextReview(r, reasons).value, d) && d.choice != Ignore
    ensures var q := NextReview(r, reasons).value;
            AnswersMatch(w, GapsOf(r.validation), Answered(w, q, d, ValidateStage, a), reasons + Settled(q.reason))
  {
    var g := GapsOf(r.validation);
    if NextTimeQuestion(g, reasons).Some? {
      TimeAnswerMatches(w, g, a, reasons, d);
    } else {
      OtherAnswerMatches(w, g, a, reasons, NextReview(r, reasons).value, d, ValidateStage);
    }
  }

  /** Every open time of the email has its answer, and only those have one. */
  predicate GapsClosed(w: World, x: Extraction, a: Answers) {
    && (a.eventDatetime.Some? <==> x.eventDatetime.None? && x.sourceDatetimeText.Some?)
    && (a.deadline.Some? <==> x.deadline.None? && x.sourceDeadlineText.Some?)
    && (a.timezone.Some? <==> !x.timezoneExplicit && HasTimeEvidence(x))
    && (a.timezone.Some? ==> w.zoneKnown(a.timezone.value))
  }

  lemma QuestionnaireCloses(w: World, x: Extraction, v: Validation, a: Answers, reasons: set<Reason>)
    requires GapsReported(x, v.issues) && TimesCoherent(x) && AnswersMatch(w, GapsOf(v), a, reasons)
    requires NextTimeQuestion(GapsOf(v), reasons).None?
    ensures GapsClosed(w, x, a)
  {
    var g := GapsOf(v);
    assert g.timezone <==> !x.timezoneExplicit && HasTimeEvidence(x);
    assert g.datetime <==> x.eventDatetime.None? && x.sourceDatetimeText.Some?;
    assert g.deadline <==> x.deadline.None? && x.sourceDeadlineText.Some?;
  }

  /** A human supplied a clock without a zone although the email states its zone. */
  predicate NaiveOverride(r: WorkflowResult, a: Answers) {
    r.extraction.timezoneExplicit && (Naive(a.eventDatetime) || Naive(a.deadline))
  }

  lemma ClosedEvidence(w: World, source: int, r: WorkflowResult, a: Answers)
    requires ValidWorld(w) && TimesCoherent(r.extraction) && GapsClosed(w, r.extraction, a)
    ensures DomainEvidence(w, source, r, a).Ok? <==> RoleConsistent(w, r) && !NaiveOverride(r, a)
  {
  }

  lemma ClosedRefusal(w: World, source: int, r: WorkflowResult, a: Answers, e: Evidence)
    requires ValidWorld(w) && TimesCoherent(r.extraction) && GapsClosed(w, r.extraction, a)
    requires DomainEvidence(w, source, r, a) == Ok(e)
    ensures Refusal(e) == if r.extraction.eventType == InterviewReschedule && r.extraction.sourceDatetimeText.None?
                          then Some("interview_datetime_unresolved") else None
  {
    assert e.eventAt.Some? <==> r.extraction.sourceDatetimeText.Some?;
    assert e.deadline.Some? <==> r.extraction.sourceDeadlineText.Some?;
    assert e.eventAt.Some? || e.deadline.Some? ==> e.timezone.Some? && e.timezone.value != "";
  }

  /** Once the questionnaire has ended, evidence is refused only for a naive clock typed under an
      explicit zone or an inconsistent role, and a write only for a reschedule with neither a
      datetime nor source datetime text. */
  lemma QuestionnaireComplete(w: World, source: int, r: WorkflowResult, a: Answers, reasons: set<Reason>, request: Request, threshold: real)
    requires ValidWorld(w) && Validates(r.extraction, request, threshold, r.validation) && r.validation.status != InvalidVerdict
    requires AnswersMatch(w, GapsOf(r.validation), a, reasons) && NextReview(r, reasons).None?
    ensures var e := DomainEvidence(w, source, r, a);
            && (e.Ok? <==> RoleConsistent(w, r) && !NaiveOverride(r, a))
            && (e.Ok? ==> Refusal(e.value) == if r.extraction.eventType == InterviewReschedule && r.extraction.sourceDatetimeText.None?
                                              then Some("interview_datetime_unresolved") else None)
  {
    GapsAreReported(r.extraction, request, threshold, r.validation);
    AcceptedTimesCoherent(r.extraction, request, threshold, r.validation);
    QuestionnaireCloses(w, r.extraction, r.validation, a, reasons);
    ClosedEvidence(w, source, r, a);
    var e := DomainEvidence(w, source, r, a);
    if e.Ok? { ClosedRefusal(w, source, r, a, e.value); }
  }

  /** An accepted extraction that states its zone and leaves its datetime open. */
  ghost predicate OpenUnderZone(r: WorkflowResult, request: Request, threshold: real) {
    && Validates(r.extraction, request, threshold, r.validation) && r.validation.status != InvalidVerdict
    && r.extraction.timezoneExplicit && r.extraction.eventDatetime.None? && r.extraction.sourceDatetimeText.Some?
  }

  /** The failing family is real: such an extraction is asked for its datetime first, a clock in the
      format that the question shows has no zone and is a valid answer, and evidence then fails. */
  lemma ShownFormatRaises(w: World, source: int, r: WorkflowResult, request: Request, threshold: real, text: string)
    requires OpenUnderZone(r, request, threshold)
    requires w.parseClock(text).Some? && !IsAware(w.parseClock(text).value)
    ensures NextReview(r, {}) == Some(ClockQuestion(DatetimeUnresolved))
    ensures var d := Decision(UseOverride, Some(text), None);
            && ValidDecision(w, ClockQuestion(DatetimeUnresolved), d)
            && DomainEvidence(w, source, r, Answered(w, ClockQuestion(DatetimeUnresolved), d, ValidateStage, NO_ANSWERS)).Err?
  {
    GapsAreReported(r.extraction, request, threshold, r.validation);
    AcceptedTimesCoherent(r.extraction, request, threshold, r.validation);
  }
}
