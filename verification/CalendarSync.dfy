/** Calendar planning and the idempotency link: a stored fingerprint standing for provider content. */
module CalendarSync {
  import opened Wrappers
  import D = Domain

  // ---------- Values ----------

  /** A stored datetime: the instant it denotes, and whether it carries a zone. */
  datatype When = When(instant: int, aware: bool)

  datatype Candidate = Candidate(
    account: int, applicationResolved: bool, companyDisplayName: Option<string>, roleName: Option<string>,
    eventType: D.EventType, eventStatus: D.EventStatus, interviewRound: Option<string>,
    startsAt: Option<When>, deadlineAt: Option<When>, timezone: Option<string>,
    sourceDatetimeText: Option<string>, outlookWebLink: Option<string>)

  /** What is sent to the provider. SHA-256 is injective, so the fingerprint of a draft is its content. */
  datatype Draft = Draft(subject: string, body: seq<string>, startsAt: int, endsAt: int)

  datatype CalendarPlan = CalendarPlan(draft: Option<Draft>, reason: string, needsReview: bool)

  /** The library matching the planner relies on: URL search, whitespace splitting, URL parsing. */
  datatype TextRules = TextRules(hasUrl: string -> bool, words: string -> string, outlookLink: string -> Option<string>)

  datatype Planner = Planner(interviewMinutes: nat, assessmentMinutes: nat, rules: TextRules)

  // ---------- Planning ----------

  function SafeText(rules: TextRules, value: string, limit: nat): (r: string)
    requires limit > 0
    ensures r != "" && (limit >= |"Recruitment"| ==> |r| <= limit)
  {
    var normalized := rules.words(value);
    if normalized == "" || rules.hasUrl(normalized) then "Recruitment"
    else if |normalized| <= limit then normalized else normalized[..limit]
  }

  function SafeOptionalText(rules: TextRules, value: Option<string>, limit: nat): Option<string>
    requires limit > 0
  {
    if value.None? || rules.hasUrl(value.value) then None
    else
      var normalized := SafeText(rules, value.value, limit);
      if normalized == "Recruitment" && rules.words(value.value) == "" then None else Some(normalized)
  }

  function Unplanned(reason: string, needsReview: bool): CalendarPlan {
    CalendarPlan(None, reason, needsReview)
  }

  predicate IsInterview(t: D.EventType) {
    t == D.Interview || t == D.InterviewReschedule
  }

  predicate IsAssessment(t: D.EventType) {
    t == D.Assessment || t == D.Deadline
  }

  function StageText(p: Planner, c: Candidate): string {
    if !IsInterview(c.eventType) then "Assessment Deadline"
    else if c.interviewRound.Some? && c.interviewRound.value != "" then "Interview " + SafeText(p.rules, c.interviewRound.value, 60)
    else "Interview"
  }

  function DraftOf(p: Planner, c: Candidate, start: int): Draft
    requires c.companyDisplayName.Some?
  {
    var minutes := if IsInterview(c.eventType) then p.interviewMinutes else p.assessmentMinutes;
    var stage := StageText(p, c);
    var company := SafeText(p.rules, c.companyDisplayName.value, 100);
    var role := SafeText(p.rules, if c.roleName.Some? && c.roleName.value != "" then c.roleName.value else "Recruitment", 100);
    var subject := SafeText(p.rules, company + " | " + role + " | " + stage, 255);
    var original := SafeOptionalText(p.rules, c.sourceDatetimeText, 300);
    var source := if c.outlookWebLink.Some? then p.rules.outlookLink(c.outlookWebLink.value) else None;
    Draft(subject,
          ["Company: " + company, "Role: " + role, "Stage: " + stage]
          + (if original.Some? then ["Original time: " + original.value] else [])
          + ["Calendar duration: " + Decimal(minutes) + "-minute placeholder; verify the original email."]
          + (if source.Some? then ["Source: " + source.value] else [])
          + ["Managed by Recruitment Inbox Agent"],
          start, start + 60 * minutes)
  }

  function Decimal(n: nat): string {
    var digit := "0123456789"[n % 10..n % 10 + 1];
    if n < 10 then digit else Decimal(n / 10) + digit
  }

  function MakePlan(p: Planner, c: Candidate, hasLink: bool): CalendarPlan {
    if c.eventStatus != D.Active then
      Unplanned(if hasLink then "inactive_event_has_calendar_link" else "inactive_event", hasLink)
    else if !c.applicationResolved || c.companyDisplayName.None? then Unplanned("application_not_resolved_for_calendar", true)
    else if c.timezone.None? || c.timezone.value == "" then Unplanned("calendar_timezone_unresolved", true)
    else if !IsInterview(c.eventType) && !IsAssessment(c.eventType) then Unplanned("event_type_not_calendar_eligible", false)
    else
      var startsAt := if IsInterview(c.eventType) then c.startsAt else c.deadlineAt;
      if startsAt.None? then Unplanned("calendar_datetime_unresolved", true)
      else if !startsAt.value.aware then Unplanned("calendar_datetime_not_timezone_aware", true)
      else CalendarPlan(Some(DraftOf(p, c, startsAt.value.instant)), "calendar_event_ready", false)
  }

  /** The datetime a calendar event is about: an interview's start, an assessment's deadline. */
  function RelevantTime(c: Candidate): Option<When> {
    if IsInterview(c.eventType) then c.startsAt else if IsAssessment(c.eventType) then c.deadlineAt else None
  }

  predicate Placeable(c: Candidate) {
    && c.eventStatus == D.Active && c.applicationResolved && c.companyDisplayName.Some?
    && c.timezone.Some? && c.timezone.value != "" && RelevantTime(c).Some? && RelevantTime(c).value.aware
  }

  /** A draft exists exactly for an active, resolved, dated interview or assessment; it starts at
      that instant and lasts the placeholder of its kind. A human is asked exactly when something
      is missing that the kind of event needs, or when an inactive event still has a link. */
  lemma PlanExactly(p: Planner, c: Candidate, hasLink: bool)
    ensures MakePlan(p, c, hasLink).draft.Some? <==> Placeable(c)
    ensures MakePlan(p, c, hasLink).needsReview <==> if c.eventStatus != D.Active then hasLink else !Placeable(c) && !Unplaceable(c)
    ensures Placeable(c) ==>
              var d := MakePlan(p, c, hasLink).draft.value;
              && d.startsAt == RelevantTime(c).value.instant
              && d.endsAt - d.startsAt == 60 * (if IsInterview(c.eventType) then p.interviewMinutes else p.assessmentMinutes)
              && 0 < |d.subject| <= 255
  {
    PlanReviewed(p, c, hasLink);
    if Placeable(c) {
      assert MakePlan(p, c, hasLink).draft == Some(DraftOf(p, c, RelevantTime(c).value.instant));
    }
  }

  /** The kind of event has no place in a calendar, and nothing else is missing. */
  predicate Unplaceable(c: Candidate) {
    && c.applicationResolved && c.companyDisplayName.Some? && c.timezone.Some? && c.timezone.value != ""
    && !IsInterview(c.eventType) && !IsAssessment(c.eventType)
  }

  lemma PlanReviewed(p: Planner, c: Candidate, hasLink: bool)
    ensures MakePlan(p, c, hasLink).draft.Some? <==> Placeable(c)
    ensures MakePlan(p, c, hasLink).needsReview <==> if c.eventStatus != D.Active then hasLink else !Placeable(c) && !Unplaceable(c)
  {
  }

  // ---------- What a draft shows ----------

  function DigitsValue(s: string): int {
    if s == "" then 0 else 10 * DigitsValue(s[..|s| - 1]) + (s[|s| - 1] as int - '0' as int)
  }

  /** The minutes are written in decimal. */
  lemma {:induction false} DecimalReads(n: nat)
    ensures DigitsValue(Decimal(n)) == n && Decimal(n) != ""
  {
    var digits := "0123456789";
    assert digits[n % 10] as int - '0' as int == n % 10;
    if n >= 10 {
      DecimalReads(n / 10);
      assert Decimal(n)[..|Decimal(n)| - 1] == Decimal(n / 10);
    } else {
      assert Decimal(n)[..0] == "";
    }
  }

  /** A text with an URL, or without words, is shown as "Recruitment"; any other by its words, cut to the limit. */
  lemma ShownText(rules: TextRules, value: string, limit: nat)
    requires limit > 0
    ensures var words, shown := rules.words(value), SafeText(rules, value, limit);
            if words == "" || rules.hasUrl(words) then shown == "Recruitment"
            else shown <= words && |shown| == if |words| < limit then |words| else limit
  {
  }

  /** An optional text is shown only if it has words and no URL. */
  lemma ShownOptional(rules: TextRules, value: Option<string>, limit: nat)
    requires limit > 0
    ensures var shown := SafeOptionalText(rules, value, limit);
            && (shown.Some? ==> value.Some? && !rules.hasUrl(value.value) && shown.value == SafeText(rules, value.value, limit))
            && (value.Some? && !rules.hasUrl(value.value) && rules.words(value.value) != "" ==> shown.Some?)
            && (value.Some? && rules.words(value.value) == "" ==> shown.None?)
  {
  }

  /** The stage of an event: an interview with its round, or an assessment. */
  function Stage(p: Planner, c: Candidate): string {
    if c.eventType == D.Assessment || c.eventType == D.Deadline then "Assessment Deadline"
    else if c.interviewRound == None || c.interviewRound == Some("") then "Interview"
    else "Interview " + SafeText(p.rules, c.interviewRound.value, 60)
  }

  function RoleShown(p: Planner, c: Candidate): string {
    SafeText(p.rules, if c.roleName == None || c.roleName == Some("") then "Recruitment" else c.roleName.value, 100)
  }

  lemma DraftSays(p: Planner, c: Candidate, hasLink: bool)
    requires Placeable(c)
    ensures var d, company := MakePlan(p, c, hasLink).draft.value, SafeText(p.rules, c.companyDisplayName.value, 100);
            var original := SafeOptionalText(p.rules, c.sourceDatetimeText, 300);
            && |d.body| >= 5 && d.body[0] == "Company: " + company && d.body[1] == "Role: " + RoleShown(p, c) && d.body[2] == "Stage: " + Stage(p, c)
            && (original.Some? ==> d.body[3] == "Original time: " + original.value)
            && (original.None? ==> |d.body[3]| > 0 && d.body[3][0] == 'C')
            && d.body[|d.body| - 1] == "Managed by Recruitment Inbox Agent"
            && (c.outlookWebLink.Some? && p.rules.outlookLink(c.outlookWebLink.value).Some? ==>
                  d.body[|d.body| - 2] == "Source: " + p.rules.outlookLink(c.outlookWebLink.value).value)
            && d.subject == SafeText(p.rules, company + " | " + RoleShown(p, c) + " | " + Stage(p, c), 255)
  {
    PlanExactly(p, c, hasLink);
    assert MakePlan(p, c, hasLink).draft == Some(DraftOf(p, c, RelevantTime(c).value.instant));
    DraftLines(p, c, RelevantTime(c).value.instant);
  }

  lemma DraftLines(p: Planner, c: Candidate, start: int)
    requires c.companyDisplayName.Some? && (IsInterview(c.eventType) || IsAssessment(c.eventType))
    ensures var d, company := DraftOf(p, c, start), SafeText(p.rules, c.companyDisplayName.value, 100);
            var original := SafeOptionalText(p.rules, c.sourceDatetimeText, 300);
            && |d.body| >= 5 && d.body[0] == "Company: " + company && d.body[1] == "Role: " + RoleShown(p, c) && d.body[2] == "Stage: " + Stage(p, c)
            && (original.Some? ==> d.body[3] == "Original time: " + original.value)
            && (original.None? ==> |d.body[3]| > 0 && d.body[3][0] == 'C')
            && d.body[|d.body| - 1] == "Managed by Recruitment Inbox Agent"
            && (c.outlookWebLink.Some? && p.rules.outlookLink(c.outlookWebLink.value).Some? ==>
                  d.body[|d.body| - 2] == "Source: " + p.rules.outlookLink(c.outlookWebLink.value).value)
            && d.subject == SafeText(p.rules, company + " | " + RoleShown(p, c) + " | " + Stage(p, c), 255)
  {
    assert StageText(p, c) == Stage(p, c);
  }

  lemma SameRest(prefix: string, x: string, y: string)
    requires prefix + x == prefix + y
    ensures x == y
  {
    assert (prefix + x)[|prefix|..] == x && (prefix + y)[|prefix|..] == y;
  }

  /** Drafts are equal only if all they show is: company, role, stage, original time, start and end. */
  lemma DraftsDiffer(p: Planner, x: Candidate, y: Candidate)
    requires Placeable(x) && Placeable(y) && MakePlan(p, x, false).draft == MakePlan(p, y, false).draft
    ensures SafeText(p.rules, x.companyDisplayName.value, 100) == SafeText(p.rules, y.companyDisplayName.value, 100)
    ensures RoleShown(p, x) == RoleShown(p, y) && Stage(p, x) == Stage(p, y)
    ensures SafeOptionalText(p.rules, x.sourceDatetimeText, 300) == SafeOptionalText(p.rules, y.sourceDatetimeText, 300)
    ensures RelevantTime(x).value.instant == RelevantTime(y).value.instant
  {
    DraftSays(p, x, false);
    DraftSays(p, y, false);
    PlanExactly(p, x, false);
    PlanExactly(p, y, false);
    SameRest("Company: ", SafeText(p.rules, x.companyDisplayName.value, 100), SafeText(p.rules, y.companyDisplayName.value, 100));
    SameRest("Role: ", RoleShown(p, x), RoleShown(p, y));
    SameRest("Stage: ", Stage(p, x), Stage(p, y));
    var a, b := SafeOptionalText(p.rules, x.sourceDatetimeText, 300), SafeOptionalText(p.rules, y.sourceDatetimeText, 300);
    if a.Some? && b.Some? { SameRest("Original time: ", a.value, b.value); }
  }

  /** Why there is no draft. */
  lemma UnplannedExactly(p: Planner, c: Candidate, hasLink: bool)
    requires !Placeable(c)
    ensures MakePlan(p, c, hasLink).reason
         == if c.eventStatus != D.Active then (if hasLink then "inactive_event_has_calendar_link" else "inactive_event")
            else if !c.applicationResolved || c.companyDisplayName.None? then "application_not_resolved_for_calendar"
            else if c.timezone == None || c.timezone == Some("") then "calendar_timezone_unresolved"
            else if c.eventType !in {D.Interview, D.InterviewReschedule, D.Assessment, D.Deadline} then "event_type_not_calendar_eligible"
            else if RelevantTime(c).None? then "calendar_datetime_unresolved" else "calendar_datetime_not_timezone_aware"
  {
  }

  // ---------- One synchronization ----------

  datatype Request = Request(account: int, source: int, event: Option<D.EventId>, replaceMissing: bool, skipUpdate: bool)

  datatype Operation = Disabled | Skipped | Created | Updated | Unchanged | ReviewRequired

  datatype SyncResult = SyncResult(operation: Operation, reason: string)

  datatype Link = Link(account: int, provider: string, id: nat, fingerprint: Draft)

  const GRAPH := "microsoft_graph"

  /** The provider numbers its events; it never gives a number twice. */
  datatype Calendar = Calendar(events: map<(int, nat), Draft>, issued: nat)

  /** `candidates` is what the domain tables give for an account, an email and an event. */
  datatype State = State(candidates: map<(int, int, D.EventId), Candidate>, links: map<D.EventId, Link>, calendar: Calendar)

  /** A gateway call may fail unapplied; an applied call may be lost before the link is saved. */
  datatype Answer = Unapplied | Lost | Recorded

  /** `calls` counts the gateway calls. An error is a raised exception. */
  datatype Outcome = Outcome(state: State, result: Result<SyncResult>, calls: nat)

  function Saved(s: State, event: D.EventId, link: Link): State {
    s.(links := s.links[event := link])
  }

  function CreateEvent(s: State, account: int, draft: Draft): State {
    s.(calendar := Calendar(s.calendar.events[(account, s.calendar.issued) := draft], s.calendar.issued + 1))
  }

  function UpdateEvent(s: State, account: int, id: nat, draft: Draft): State {
    s.(calendar := s.calendar.(events := s.calendar.events[(account, id) := draft]))
  }

  function SyncCreate(s: State, r: Request, event: D.EventId, c: Candidate, draft: Draft, answer: Answer): Outcome {
    var id := s.calendar.issued;
    var s' := CreateEvent(s, r.account, draft);
    match answer
    case Unapplied => Outcome(s, Err("calendar call failed"), 1)
    case Lost => Outcome(s', Err("calendar call failed"), 1)
    case Recorded =>
      Outcome(Saved(s', event, Link(c.account, GRAPH, id, draft)),
              Ok(SyncResult(Created, if r.replaceMissing then "missing_calendar_event_replaced" else "calendar_event_created")), 1)
  }

  function SyncUpdate(s: State, r: Request, event: D.EventId, c: Candidate, draft: Draft, link: Link, answer: Answer): Outcome {
    if answer == Unapplied then Outcome(s, Err("calendar call failed"), 1)
    else if (r.account, link.id) !in s.calendar.events then
      Outcome(s, Ok(SyncResult(ReviewRequired, "linked_calendar_event_missing")), 1)
    else
      var s' := UpdateEvent(s, r.account, link.id, draft);
      if answer == Lost then Outcome(s', Err("calendar call failed"), 1)
      else Outcome(Saved(s', event, Link(c.account, GRAPH, link.id, draft)), Ok(SyncResult(Updated, "calendar_event_updated")), 1)
  }

  function Answered(s: State, operation: Operation, reason: string): Outcome {
    Outcome(s, Ok(SyncResult(operation, reason)), 0)
  }

  function SyncPlanned(s: State, r: Request, event: D.EventId, c: Candidate, plan: CalendarPlan, answer: Answer): Outcome {
    if plan.needsReview then Answered(s, ReviewRequired, plan.reason)
    else if plan.draft.None? then Answered(s, Skipped, plan.reason)
    else if event !in s.links || r.replaceMissing then SyncCreate(s, r, event, c, plan.draft.value, answer)
    else
      var link := s.links[event];
      if link.account != r.account || link.provider != GRAPH then Answered(s, ReviewRequired, "calendar_link_identity_conflict")
      else if link.fingerprint == plan.draft.value then Answered(s, Unchanged, "calendar_event_already_current")
      else SyncUpdate(s, r, event, c, plan.draft.value, link, answer)
  }

  function Sync(p: Planner, enabled: bool, s: State, r: Request, answer: Answer): Outcome {
    if !enabled then Answered(s, Disabled, "calendar_sync_disabled")
    else if r.skipUpdate then Answered(s, Skipped, "calendar_update_skipped_by_review")
    else if r.event.None? then Answered(s, Skipped, "no_recruitment_event")
    else if (r.account, r.source, r.event.value) !in s.candidates then
      Outcome(s, Err("calendar candidate does not match authoritative domain state"), 0)
    else
      var c := s.candidates[(r.account, r.source, r.event.value)];
      SyncPlanned(s, r, r.event.value, c, MakePlan(p, c, r.event.value in s.links), answer)
  }

  predicate Answers(done: Outcome, s: State, operation: Operation, reason: string, calls: nat) {
    done.state == s && done.calls == calls && done.result == Ok(SyncResult(operation, reason))
  }

  /** Without a candidate nothing is called; with one, its plan decides. */
  lemma SyncExactly(p: Planner, enabled: bool, s: State, r: Request, answer: Answer)
    ensures var done := Sync(p, enabled, s, r, answer);
            && (!enabled ==> Answers(done, s, Disabled, "calendar_sync_disabled", 0))
            && (enabled && r.skipUpdate ==> Answers(done, s, Skipped, "calendar_update_skipped_by_review", 0))
            && (enabled && !r.skipUpdate && r.event.None? ==> Answers(done, s, Skipped, "no_recruitment_event", 0))
            && (enabled && !r.skipUpdate && r.event.Some? && (r.account, r.source, r.event.value) !in s.candidates ==>
                  done.state == s && done.calls == 0 && done.result.Err?)
  {
  }

  /** The plan's draft is created when there is no link or the event is to be replaced, patched into the
      linked event when it differs, and left alone when it is already there. */
  lemma PlannedExactly(s: State, r: Request, event: D.EventId, c: Candidate, plan: CalendarPlan, answer: Answer)
    ensures var done := SyncPlanned(s, r, event, c, plan, answer);
            if plan.needsReview then Answers(done, s, ReviewRequired, plan.reason, 0)
            else if plan.draft.None? then Answers(done, s, Skipped, plan.reason, 0)
            else if event !in s.links || r.replaceMissing then
              done.calls == 1 && (done.result.Ok? <==> answer == Recorded)
              && (answer == Unapplied ==> done.state == s)
              && (answer != Unapplied ==>
                    && done.state.calendar.events == s.calendar.events[(r.account, s.calendar.issued) := plan.draft.value]
                    && done.state.calendar.issued == s.calendar.issued + 1 && done.state.candidates == s.candidates
                    && done.state.links == if answer == Lost then s.links
                                           else s.links[event := Link(c.account, "microsoft_graph", s.calendar.issued, plan.draft.value)])
              && (answer == Recorded ==> done.result.value.operation == Created)
            else
              var link := s.links[event];
              if link.account != r.account || link.provider != "microsoft_graph" then
                Answers(done, s, ReviewRequired, "calendar_link_identity_conflict", 0)
              else if link.fingerprint == plan.draft.value then Answers(done, s, Unchanged, "calendar_event_already_current", 0)
              else if answer == Unapplied then done.state == s && done.calls == 1 && done.result.Err?
              else if (r.account, link.id) !in s.calendar.events then Answers(done, s, ReviewRequired, "linked_calendar_event_missing", 1)
              else
                && done.calls == 1 && done.state.candidates == s.candidates && done.state.calendar.issued == s.calendar.issued
                && done.state.calendar.events == s.calendar.events[(r.account, link.id) := plan.draft.value]
                && (answer == Lost ==> done.state.links == s.links && done.result.Err?)
                && (answer == Recorded ==>
                      && done.state.links == s.links[event := Link(c.account, "microsoft_graph", link.id, plan.draft.value)]
                      && done.result == Ok(SyncResult(Updated, "calendar_event_updated")))
  {
  }

  // ---------- Link coherence over runs ----------

  /** `unrecorded` holds the events whose last applied PATCH never reached the link row. */
  datatype Run = Run(state: State, unrecorded: set<D.EventId>)

  /** Domain changes and syncs in any order; nobody else edits the calendar. */
  datatype Event = DomainChange(candidates: map<(int, int, D.EventId), Candidate>) | SyncEvent(request: Request, answer: Answer)

  predicate Settles(done: Outcome) {
    done.result.Ok? && (done.result.value.operation == Created || done.result.value.operation == Updated)
  }

  function Unrecorded(run: Run, r: Request, answer: Answer, done: Outcome): set<D.EventId> {
    if done.calls == 0 || r.event.None? || answer == Unapplied then run.unrecorded
    else if Settles(done) then run.unrecorded - {r.event.value}
    else if done.result.Err? && r.event.value in run.state.links && !r.replaceMissing then run.unrecorded + {r.event.value}
    else run.unrecorded
  }

  function Step(p: Planner, enabled: bool, run: Run, e: Event): Run {
    match e
    case DomainChange(candidates) => run.(state := run.state.(candidates := candidates))
    case SyncEvent(r, answer) =>
      var done := Sync(p, enabled, run.state, r, answer);
      Run(done.state, Unrecorded(run, r, answer, done))
  }

  function RunAll(p: Planner, enabled: bool, run: Run, events: seq<Event>): Run
    decreases |events|
  {
    if events == [] then run else RunAll(p, enabled, Step(p, enabled, run, events[0]), events[1..])
  }

  /** The account of a candidate is the account it was asked for. */
  ghost predicate AccountsAgree(candidates: map<(int, int, D.EventId), Candidate>) {
    forall k :: k in candidates ==> candidates[k].account == k.0
  }

  function Provided(s: State, event: D.EventId): Option<Draft> {
    if event in s.links && (s.links[event].account, s.links[event].id) in s.calendar.events
    then Some(s.calendar.events[(s.links[event].account, s.links[event].id)]) else None
  }

  ghost predicate Coherent(run: Run) {
    var s := run.state;
    && AccountsAgree(s.candidates)
    && (forall k :: k in s.calendar.events ==> k.1 < s.calendar.issued)
    && (forall e :: e in s.links ==> s.links[e].provider == GRAPH && (s.links[e].account, s.links[e].id) in s.calendar.events)
    && (forall e, f :: e in s.links && f in s.links && e != f ==> s.links[e].id != s.links[f].id)
    && (forall e :: e in run.unrecorded ==> e in s.links)
    && (forall e :: e in s.links ==> (Provided(s, e) == Some(s.links[e].fingerprint) <==> e !in run.unrecorded))
  }

  predicate Honest(e: Event) {
    e.DomainChange? ==> forall k :: k in e.candidates ==> e.candidates[k].account == k.0
  }

  lemma CreateKeepsCoherent(run: Run, r: Request, event: D.EventId, c: Candidate, draft: Draft)
    requires Coherent(run) && c.account == r.account
    ensures Coherent(Run(SyncCreate(run.state, r, event, c, draft, Lost).state, run.unrecorded))
    ensures Coherent(Run(SyncCreate(run.state, r, event, c, draft, Recorded).state, run.unrecorded - {event}))
  {
    var s := run.state;
    var lost := SyncCreate(s, r, event, c, draft, Lost).state;
    forall e | e in s.links ensures Provided(lost, e) == Provided(s, e) {
      assert (s.links[e].account, s.links[e].id) in s.calendar.events;
    }
    var recorded := SyncCreate(s, r, event, c, draft, Recorded).state;
    forall e | e in s.links && e != event ensures Provided(recorded, e) == Provided(s, e) && s.links[e].id != s.calendar.issued {
      assert (s.links[e].account, s.links[e].id) in s.calendar.events;
    }
  }

  /** A PATCH changes the content behind one link only. */
  lemma PatchKeepsOthers(run: Run, event: D.EventId, draft: Draft, e: D.EventId)
    requires Coherent(run) && event in run.state.links && e in run.state.links
    ensures Provided(UpdateEvent(run.state, run.state.links[event].account, run.state.links[event].id, draft), e)
         == if e == event then Some(draft) else Provided(run.state, e)
  {
    if e != event { assert run.state.links[e].id != run.state.links[event].id; }
  }

  lemma LostPatchKeepsCoherent(run: Run, event: D.EventId, draft: Draft)
    requires Coherent(run) && event in run.state.links && run.state.links[event].fingerprint != draft
    ensures var link := run.state.links[event];
            Coherent(Run(UpdateEvent(run.state, link.account, link.id, draft), run.unrecorded + {event}))
  {
    forall e | e in run.state.links {
      PatchKeepsOthers(run, event, draft, e);
    }
  }

  /** Writing the content behind a link into its row makes that link coherent and moves no other. */
  lemma RecordKeepsCoherent(run: Run, event: D.EventId, draft: Draft)
    requires Coherent(run) && event in run.state.links && Provided(run.state, event) == Some(draft)
    ensures Coherent(Run(Saved(run.state, event, run.state.links[event].(fingerprint := draft)), run.unrecorded - {event}))
  {
    var s' := Saved(run.state, event, run.state.links[event].(fingerprint := draft));
    forall e | e in s'.links ensures Provided(s', e) == Provided(run.state, e) {
    }
  }

  lemma PlannedKeepsCoherent(run: Run, r: Request, event: D.EventId, c: Candidate, plan: CalendarPlan, answer: Answer)
    requires Coherent(run) && r.event == Some(event) && c.account == r.account
    ensures var done := SyncPlanned(run.state, r, event, c, plan, answer);
            Coherent(Run(done.state, Unrecorded(run, r, answer, done)))
  {
    if plan.needsReview || plan.draft.None? || answer == Unapplied {
    } else if event !in run.state.links || r.replaceMissing {
      CreateKeepsCoherent(run, r, event, c, plan.draft.value);
    } else if run.state.links[event].account == r.account && run.state.links[event].fingerprint != plan.draft.value {
      UpdateKeepsCoherent(run, r, event, c, plan.draft.value, answer);
    }
  }

  lemma UpdateKeepsCoherent(run: Run, r: Request, event: D.EventId, c: Candidate, draft: Draft, answer: Answer)
    requires Coherent(run) && event in run.state.links && answer != Unapplied
    requires c.account == r.account == run.state.links[event].account && run.state.links[event].fingerprint != draft
    ensures var done := SyncUpdate(run.state, r, event, c, draft, run.state.links[event], answer);
            && (Settles(done) <==> answer == Recorded)
            && Coherent(Run(done.state, if answer == Recorded then run.unrecorded - {event} else run.unrecorded + {event}))
  {
    var link := run.state.links[event];
    var patched := Run(UpdateEvent(run.state, link.account, link.id, draft), run.unrecorded + {event});
    LostPatchKeepsCoherent(run, event, draft);
    if answer == Recorded {
      PatchKeepsOthers(run, event, draft, event);
      RecordKeepsCoherent(patched, event, draft);
      assert patched.unrecorded - {event} == run.unrecorded - {event};
    }
  }

  lemma StepCoherent(p: Planner, enabled: bool, run: Run, e: Event)
    requires Coherent(run) && Honest(e)
    ensures Coherent(Step(p, enabled, run, e))
  {
    if e.SyncEvent? {
      var s, r := run.state, e.request;
      if enabled && !r.skipUpdate && r.event.Some? && (r.account, r.source, r.event.value) in s.candidates {
        var c := s.candidates[(r.account, r.source, r.event.value)];
        PlannedKeepsCoherent(run, r, r.event.value, c, MakePlan(p, c, r.event.value in s.links), e.answer);
      }
    }
  }

  lemma {:induction false} RunCoherent(p: Planner, enabled: bool, run: Run, events: seq<Event>)
    requires Coherent(run) && forall i :: 0 <= i < |events| ==> Honest(events[i])
    ensures Coherent(RunAll(p, enabled, run, events))
    decreases |events|
  {
    if events != [] {
      assert Honest(events[0]);
      StepCoherent(p, enabled, run, events[0]);
      RunCoherent(p, enabled, Step(p, enabled, run, events[0]), events[1..]);
    }
  }

  lemma EmptyCoherent(candidates: map<(int, int, D.EventId), Candidate>)
    requires AccountsAgree(candidates)
    ensures Coherent(Run(State(candidates, map[], Calendar(map[], 0)), {}))
  {
  }

  /** The draft of the current candidate, when there is one. */
  function Wanted(p: Planner, s: State, r: Request): Option<Draft> {
    if r.event.None? || (r.account, r.source, r.event.value) !in s.candidates then None
    else MakePlan(p, s.candidates[(r.account, r.source, r.event.value)], r.event.value in s.links).draft
  }

  lemma PlannedContent(run: Run, r: Request, event: D.EventId, c: Candidate, plan: CalendarPlan, answer: Answer)
    requires Coherent(run) && r.event == Some(event) && c.account == r.account
    ensures var done := SyncPlanned(run.state, r, event, c, plan, answer);
            && (Settles(done) ==> plan.draft.Some? && Provided(done.state, event) == plan.draft)
            && (Settles(done) ==> event in done.state.links && done.state.links[event] == Link(r.account, GRAPH, done.state.links[event].id, plan.draft.value))
            && (done.result.Ok? && done.result.value.operation == Unchanged ==>
                  && plan.draft.Some? && !plan.needsReview && done.state == run.state && !r.replaceMissing
                  && event in run.state.links && run.state.links[event] == Link(r.account, GRAPH, run.state.links[event].id, plan.draft.value))
  {
  }

  /** A sync that ends CREATED or UPDATED leaves the linked event equal to the draft of the
      current candidate. One that ends UNCHANGED does exactly when every PATCH applied since the
      link was written was also recorded. */
  lemma SettledContent(p: Planner, enabled: bool, run: Run, r: Request, answer: Answer, done: Outcome)
    requires Coherent(run) && done == Sync(p, enabled, run.state, r, answer)
    ensures Settles(done) ==> Wanted(p, run.state, r).Some? && Provided(done.state, r.event.value) == Wanted(p, run.state, r)
    ensures done.result.Ok? && done.result.value.operation == Unchanged ==>
              && Wanted(p, run.state, r).Some? && done.state == run.state
              && (Provided(run.state, r.event.value) == Wanted(p, run.state, r) <==> r.event.value !in run.unrecorded)
  {
    if enabled && !r.skipUpdate && r.event.Some? && (r.account, r.source, r.event.value) in run.state.candidates {
      var c := run.state.candidates[(r.account, r.source, r.event.value)];
      PlannedContent(run, r, r.event.value, c, MakePlan(p, c, r.event.value in run.state.links), answer);
    }
  }

  /** Whether a sync of this event has raised since one last ended CREATED or UPDATED; `raised` is
      the answer before these events. */
  predicate Raised(p: Planner, enabled: bool, run: Run, events: seq<Event>, event: D.EventId, raised: bool)
    decreases |events|
  {
    if events == [] then raised
    else
      Raised(p, enabled, Step(p, enabled, run, events[0]), events[1..], event, RaisedNext(p, enabled, run.state, events[0], event, raised))
  }

  predicate RaisedNext(p: Planner, enabled: bool, s: State, e: Event, event: D.EventId, raised: bool) {
    if e.DomainChange? || e.request.event != Some(event) then raised
    else
      var done := Sync(p, enabled, s, e.request, e.answer);
      !Settles(done) && (raised || done.result.Err?)
  }

  lemma StepRaised(p: Planner, enabled: bool, run: Run, e: Event, event: D.EventId, raised: bool)
    requires event in run.unrecorded ==> raised
    ensures event in Step(p, enabled, run, e).unrecorded ==> RaisedNext(p, enabled, run.state, e, event, raised)
  {
    if e.SyncEvent? { SettlesWithCall(p, enabled, run.state, e.request, e.answer); }
  }

  lemma SettlesWithCall(p: Planner, enabled: bool, s: State, r: Request, answer: Answer)
    ensures Settles(Sync(p, enabled, s, r, answer)) ==> Sync(p, enabled, s, r, answer).calls > 0 && answer == Recorded
  {
    if enabled && !r.skipUpdate && r.event.Some? && (r.account, r.source, r.event.value) in s.candidates {
      var c := s.candidates[(r.account, r.source, r.event.value)];
      SyncOfCandidate(p, enabled, s, r, answer);
      PlannedSettles(s, r, r.event.value, c, MakePlan(p, c, r.event.value in s.links), answer);
    }
  }

  lemma PlannedSettles(s: State, r: Request, event: D.EventId, c: Candidate, plan: CalendarPlan, answer: Answer)
    ensures Settles(SyncPlanned(s, r, event, c, plan, answer)) ==> SyncPlanned(s, r, event, c, plan, answer).calls > 0 && answer == Recorded
  {
  }

  lemma {:induction false} UnrecordedRaised(p: Planner, enabled: bool, run: Run, events: seq<Event>, event: D.EventId, raised: bool)
    requires event in run.unrecorded ==> raised
    ensures event in RunAll(p, enabled, run, events).unrecorded ==> Raised(p, enabled, run, events, event, raised)
    decreases |events|
  {
    if events != [] {
      StepRaised(p, enabled, run, events[0], event, raised);
      UnrecordedRaised(p, enabled, Step(p, enabled, run, events[0]), events[1..], event,
                       RaisedNext(p, enabled, run.state, events[0], event, raised));
    }
  }

  /** What a caller can see of that: if no sync of the event has raised since it was last settled,
      UNCHANGED means that the provider holds the wanted draft. */
  lemma UnchangedHolds(p: Planner, enabled: bool, candidates: map<(int, int, D.EventId), Candidate>, events: seq<Event>, r: Request, answer: Answer)
    requires AccountsAgree(candidates) && (forall i :: 0 <= i < |events| ==> Honest(events[i])) && r.event.Some?
    requires !Raised(p, enabled, Run(State(candidates, map[], Calendar(map[], 0)), {}), events, r.event.value, false)
    ensures var s := RunAll(p, enabled, Run(State(candidates, map[], Calendar(map[], 0)), {}), events).state;
            var done := Sync(p, enabled, s, r, answer);
            done.result.Ok? && done.result.value.operation == Unchanged ==>
              Wanted(p, s, r).Some? && Provided(s, r.event.value) == Wanted(p, s, r)
  {
    var start := Run(State(candidates, map[], Calendar(map[], 0)), {});
    EmptyCoherent(candidates);
    RunCoherent(p, enabled, start, events);
    UnrecordedRaised(p, enabled, start, events, r.event.value, false);
    var run := RunAll(p, enabled, start, events);
    SettledContent(p, enabled, run, r, answer, Sync(p, enabled, run.state, r, answer));
  }

  lemma PlannedRepeats(s: State, r: Request, event: D.EventId, c: Candidate, plan: CalendarPlan, again: Answer)
    requires event in s.links && plan.draft.Some? && !plan.needsReview
    requires s.links[event] == Link(r.account, GRAPH, s.links[event].id, plan.draft.value)
    ensures var repeated := SyncPlanned(s, r, event, c, plan, again);
            && (repeated.calls == 0 <==> !r.replaceMissing)
            && (!r.replaceMissing ==> repeated == Answered(s, Unchanged, "calendar_event_already_current"))
  {
  }

  lemma SyncOfCandidate(p: Planner, enabled: bool, s: State, r: Request, answer: Answer)
    requires enabled && !r.skipUpdate && r.event.Some? && (r.account, r.source, r.event.value) in s.candidates
    ensures var c := s.candidates[(r.account, r.source, r.event.value)];
            Sync(p, enabled, s, r, answer) == SyncPlanned(s, r, r.event.value, c, MakePlan(p, c, r.event.value in s.links), answer)
  {
  }

  /** Repeating a settled request without a domain change makes no gateway call and answers
      UNCHANGED, exactly when the request does not ask to replace a missing event. */
  lemma SettledRepeats(p: Planner, enabled: bool, run: Run, r: Request, answer: Answer, done: Outcome, again: Answer)
    requires Coherent(run) && done == Sync(p, enabled, run.state, r, answer)
    requires Settles(done) || (done.result.Ok? && done.result.value.operation == Unchanged)
    ensures var repeated := Sync(p, enabled, done.state, r, again);
            && (repeated.calls == 0 <==> !r.replaceMissing)
            && (!r.replaceMissing ==> repeated == Answered(done.state, Unchanged, "calendar_event_already_current"))
  {
    var event := r.event.value;
    var c := run.state.candidates[(r.account, r.source, event)];
    PlanIgnoresLink(p, c);
    SyncOfCandidate(p, enabled, run.state, r, answer);
    PlannedSettledRepeats(run, r, event, c, MakePlan(p, c, event in run.state.links), answer, again);
    SyncOfCandidate(p, enabled, done.state, r, again);
  }

  lemma PlannedSettledRepeats(run: Run, r: Request, event: D.EventId, c: Candidate, plan: CalendarPlan, answer: Answer, again: Answer)
    requires Coherent(run) && r.event == Some(event) && c.account == r.account
    requires var done := SyncPlanned(run.state, r, event, c, plan, answer);
             Settles(done) || (done.result.Ok? && done.result.value.operation == Unchanged)
    ensures var done := SyncPlanned(run.state, r, event, c, plan, answer);
            var repeated := SyncPlanned(done.state, r, event, c, plan, again);
            && done.state.candidates == run.state.candidates && plan.draft.Some?
            && (repeated.calls == 0 <==> !r.replaceMissing)
            && (!r.replaceMissing ==> repeated == Answered(done.state, Unchanged, "calendar_event_already_current"))
  {
    PlannedContent(run, r, event, c, plan, answer);
    PlannedRepeats(SyncPlanned(run.state, r, event, c, plan, answer).state, r, event, c, plan, again);
  }

  lemma PlanIgnoresLink(p: Planner, c: Candidate)
    ensures MakePlan(p, c, true).draft == MakePlan(p, c, false).draft
    ensures MakePlan(p, c, false).draft.Some? ==> MakePlan(p, c, true) == MakePlan(p, c, false)
  {
  }

  /** The failing family is inhabited: create for draft one, let the update to draft two be
      applied but lost, change the domain back; the sync answers UNCHANGED over the wrong event. */
  lemma LostUpdateGoesUnnoticed(p: Planner, one: Candidate, two: Candidate, source: int, event: D.EventId)
    requires MakePlan(p, one, true).draft.Some? && MakePlan(p, two, true).draft.Some?
    requires MakePlan(p, one, true).draft != MakePlan(p, two, true).draft && one.account == two.account
    ensures var key := (one.account, source, event);
            var r := Request(one.account, source, Some(event), false, false);
            var run := RunAll(p, true, Run(State(map[key := one], map[], Calendar(map[], 0)), {}),
                              [SyncEvent(r, Recorded), DomainChange(map[key := two]), SyncEvent(r, Lost), DomainChange(map[key := one])]);
            var done := Sync(p, true, run.state, r, Recorded);
            && done.result == Ok(SyncResult(Unchanged, "calendar_event_already_current"))
            && Provided(done.state, event) == MakePlan(p, two, true).draft
  {
    var key := (one.account, source, event);
    var r := Request(one.account, source, Some(event), false, false);
    PlanIgnoresLink(p, one);
    PlanIgnoresLink(p, two);
    var d1, d2 := MakePlan(p, one, true).draft.value, MakePlan(p, two, true).draft.value;
    var start := Run(State(map[key := one], map[], Calendar(map[], 0)), {});
    var events := [SyncEvent(r, Recorded), DomainChange(map[key := two]), SyncEvent(r, Lost), DomainChange(map[key := one])];
    FourSteps(p, true, start, events[0], events[1], events[2], events[3]);
    var created := Step(p, true, start, events[0]);
    assert created.state.links == map[event := Link(one.account, GRAPH, 0, d1)];
    var changed := Step(p, true, created, events[1]);
    LosesPatch(p, changed, r, event, two);
    assert changed.state.calendar.events == map[(one.account, 0) := d1];
  }

  lemma FourSteps(p: Planner, enabled: bool, run: Run, a: Event, b: Event, c: Event, d: Event)
    ensures RunAll(p, enabled, run, [a, b, c, d])
         == Step(p, enabled, Step(p, enabled, Step(p, enabled, Step(p, enabled, run, a), b), c), d)
  {
    var events := [a, b, c, d];
    assert events[1..] == [b, c, d] && [b, c, d][1..] == [c, d] && [c, d][1..] == [d] && [d][1..] == [];
    var one := Step(p, enabled, run, a);
    var two := Step(p, enabled, one, b);
    var three := Step(p, enabled, two, c);
    assert RunAll(p, enabled, three, [d]) == Step(p, enabled, three, d);
    assert RunAll(p, enabled, two, [c, d]) == RunAll(p, enabled, three, [d]);
    assert RunAll(p, enabled, one, [b, c, d]) == RunAll(p, enabled, two, [c, d]);
  }

  /** A lost update changes the provider's event and not the link. */
  lemma LosesPatch(p: Planner, run: Run, r: Request, event: D.EventId, c: Candidate)
    requires r.event == Some(event) && !r.replaceMissing && !r.skipUpdate && event in run.state.links
    requires (r.account, r.source, event) in run.state.candidates && run.state.candidates[(r.account, r.source, event)] == c
    requires var link := run.state.links[event];
             && link.account == r.account && link.provider == GRAPH && (r.account, link.id) in run.state.calendar.events
             && MakePlan(p, c, true).draft.Some? && link.fingerprint != MakePlan(p, c, true).draft.value
    ensures Step(p, true, run, SyncEvent(r, Lost)).state
         == UpdateEvent(run.state, r.account, run.state.links[event].id, MakePlan(p, c, true).draft.value)
  {
  }

  // ---------- What the workflow may be answered ----------

  /** The review questions a sync can raise, given the flags of its request. */
  predicate Possible(r: Request, result: SyncResult) {
    result.operation == ReviewRequired ==>
      !r.skipUpdate && r.event.Some? && (r.replaceMissing ==> result.reason != "linked_calendar_event_missing")
  }

  /** A skipped update asks nothing, and a replacement never finds its event missing. */
  lemma SyncAnswersPossible(p: Planner, enabled: bool, s: State, r: Request, answer: Answer)
    ensures var done := Sync(p, enabled, s, r, answer); done.result.Ok? ==> Possible(r, done.result.value)
  {
    if enabled && !r.skipUpdate && r.event.Some? && (r.account, r.source, r.event.value) in s.candidates {
      var reason := MakePlan(p, s.candidates[(r.account, r.source, r.event.value)], r.event.value in s.links).reason;
      assert reason != "linked_calendar_event_missing";
    }
  }

  // ---------- The service as a program ----------

  class CalendarSyncStore {
    var candidates: map<(int, int, D.EventId), Candidate>
    var links: map<D.EventId, Link>

    method LoadCandidate(account: int, source: int, event: D.EventId) returns (r: Result<Candidate>)
      ensures r == if (account, source, event) in candidates then Ok(candidates[(account, source, event)])
                   else Err("calendar candidate does not match authoritative domain state")
    {
      if (account, source, event) !in candidates { return Err("calendar candidate does not match authoritative domain state"); }
      r := Ok(candidates[(account, source, event)]);
    }

    /** One row per event, overwritten on conflict. */
    method SaveLink(event: D.EventId, link: Link)
      modifies this`links
      ensures links == old(links)[event := link]
    {
      links := links[event := link];
    }
  }

  class CalendarGateway {
    var calendar: Calendar

    method CreateEvent(account: int, draft: Draft, answer: Answer) returns (r: Result<nat>)
      modifies this
      ensures answer == Unapplied ==> calendar == old(calendar)
      ensures answer != Unapplied ==>
                calendar == Calendar(old(calendar).events[(account, old(calendar).issued) := draft], old(calendar).issued + 1)
      ensures r == if answer == Recorded then Ok(old(calendar).issued) else Err("calendar call failed")
    {
      if answer == Unapplied { return Err("calendar call failed"); }
      var id := calendar.issued;
      calendar := Calendar(calendar.events[(account, id) := draft], id + 1);
      r := if answer == Lost then Err("calendar call failed") else Ok(id);
    }

    /** `Ok(None)` stands for the provider's not-found answer. */
    method UpdateEvent(account: int, id: nat, draft: Draft, answer: Answer) returns (r: Result<Option<nat>>)
      modifies this
      ensures answer == Unapplied || (account, id) !in old(calendar).events ==> calendar == old(calendar)
      ensures answer != Unapplied && (account, id) in old(calendar).events ==>
                calendar == old(calendar).(events := old(calendar).events[(account, id) := draft])
      ensures r == if answer == Unapplied then Err("calendar call failed")
                   else if (account, id) !in old(calendar).events then Ok(None)
                   else if answer == Lost then Err("calendar call failed") else Ok(Some(id))
    {
      if answer == Unapplied { return Err("calendar call failed"); }
      if (account, id) !in calendar.events { return Ok(None); }
      calendar := calendar.(events := calendar.events[(account, id) := draft]);
      r := if answer == Lost then Err("calendar call failed") else Ok(Some(id));
    }
  }

  class CalendarSyncService {
    const store: CalendarSyncStore
    const gateway: CalendarGateway
    const planner: Planner
    const enabled: bool

    constructor (store: CalendarSyncStore, gateway: CalendarGateway, planner: Planner, enabled: bool)
      ensures this.store == store && this.gateway == gateway && this.planner == planner && this.enabled == enabled
    {
      this.store, this.gateway, this.planner, this.enabled := store, gateway, planner, enabled;
    }

    function Snapshot(): State
      reads store, gateway
    {
      State(store.candidates, store.links, gateway.calendar)
    }

    method Synchronize(r: Request, answer: Answer) returns (result: Result<SyncResult>)
      modifies store`links, gateway
      ensures (Snapshot(), result) == (var done := Sync(planner, enabled, old(Snapshot()), r, answer); (done.state, done.result))
    {
      if !enabled { return Ok(SyncResult(Disabled, "calendar_sync_disabled")); }
      if r.skipUpdate { return Ok(SyncResult(Skipped, "calendar_update_skipped_by_review")); }
      if r.event.None? { return Ok(SyncResult(Skipped, "no_recruitment_event")); }
      var event := r.event.value;
      var loaded := store.LoadCandidate(r.account, r.source, event);
      if loaded.Err? { return Err(loaded.error); }
      var plan := MakePlan(planner, loaded.value, event in store.links);
      result := SynchronizePlan(r, event, loaded.value, plan, answer);
    }

    method SynchronizePlan(r: Request, event: D.EventId, c: Candidate, plan: CalendarPlan, answer: Answer) returns (result: Result<SyncResult>)
      modifies store`links, gateway
      ensures (Snapshot(), result) == (var done := SyncPlanned(old(Snapshot()), r, event, c, plan, answer); (done.state, done.result))
    {
      if plan.needsReview { return Ok(SyncResult(ReviewRequired, plan.reason)); }
      if plan.draft.None? { return Ok(SyncResult(Skipped, plan.reason)); }
      var draft := plan.draft.value;
      if event !in store.links || r.replaceMissing {
        var created := gateway.CreateEvent(r.account, draft, answer);
        if created.Err? { return Err(created.error); }
        store.SaveLink(event, Link(c.account, GRAPH, created.value, draft));
        return Ok(SyncResult(Created, if r.replaceMissing then "missing_calendar_event_replaced" else "calendar_event_created"));
      }
      var link := store.links[event];
      if link.account != r.account || link.provider != GRAPH {
        return Ok(SyncResult(ReviewRequired, "calendar_link_identity_conflict"));
      }
      if link.fingerprint == draft { return Ok(SyncResult(Unchanged, "calendar_event_already_current")); }
      var updated := gateway.UpdateEvent(r.account, link.id, draft, answer);
      if updated.Err? { return Err(updated.error); }
      if updated.value.None? { return Ok(SyncResult(ReviewRequired, "linked_calendar_event_missing")); }
      store.SaveLink(event, Link(c.account, GRAPH, updated.value.value, draft));
      result := Ok(SyncResult(Updated, "calendar_event_updated"));
    }
  }
}
