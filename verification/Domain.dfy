/** Evidence, resolutions, transition plans, and the one transaction that applies a plan. */
module Domain {
  import opened Wrappers
  import opened ApplicationStatus

  // ---------- Values ----------

  datatype EventType =
    | ApplicationReceived | Assessment | Interview | InterviewReschedule | ActionRequired
    | Deadline | ResultNotice | OfferNotice | Rejection | GeneralUpdate | UnknownEvent

  datatype EventStatus = Active | CompletedEvent | Superseded | Cancelled

  datatype ActionType =
    | AssessmentAction | InterviewAction | Confirmation | Scheduling
    | ApplicationPortal | OfferAction | DeadlineAction | General

  /** A text beside its case-folded, whitespace-collapsed form. */
  datatype Text = Text(raw: string, normal: string)

  /** Aware datetimes are instants: the source compares and hashes them in UTC. */
  type Instant = int

  datatype Evidence = Evidence(
    source: int, companyId: Option<int>, rawCompanyName: Option<string>,
    roleName: Option<string>, roleNormalized: Option<string>,
    eventType: EventType, round: Option<Text>,
    actionRequired: bool, actionText: Option<Text>, actionLinkRef: Option<string>,
    eventAt: Option<Instant>, deadline: Option<Instant>, timezone: Option<string>,
    sourceDatetimeText: Option<string>, sourceDeadlineText: Option<string>)

  /** SHA-256 and uuid5 are injective: a hash is the tuple it hashes. */
  datatype Fingerprint = Fingerprint(companyId: Option<int>, role: Option<string>, eventType: EventType,
                                     round: Option<string>, eventAt: Option<Instant>, deadline: Option<Instant>)

  datatype ActionKey = ActionKey(event: Fingerprint, actionType: ActionType, title: string, dueAt: Option<Instant>)

  datatype ApplicationId = NewApplicationId(source: int) | EarlierApplication(n: int)
  datatype EventId = NewEventId(source: int, fingerprint: Fingerprint) | EarlierEvent(n: int)
  datatype ActionId = NewActionId(source: int, key: ActionKey) | EarlierAction(n: int)

  function DesiredStatus(e: Evidence): Status {
    match e.eventType
    case ApplicationReceived => Applied
    case Assessment => AssessmentPending
    case Interview => if e.eventAt.Some? then InterviewScheduled else InterviewPending
    case InterviewReschedule => InterviewScheduled
    case OfferNotice => Offer
    case Rejection => Rejected
    case _ => Unknown
  }

  function ActionTypeFor(e: Evidence): ActionType {
    match e.eventType
    case Assessment => AssessmentAction
    case Interview => InterviewAction
    case InterviewReschedule => InterviewAction
    case Deadline => DeadlineAction
    case OfferNotice => OfferAction
    case ApplicationReceived => ApplicationPortal
    case _ => General
  }

  function TrackedEventType(t: EventType): Option<EventType> {
    if t == UnknownEvent || t == GeneralUpdate then None
    else if t == InterviewReschedule then Some(Interview)
    else Some(t)
  }

  /** Why evidence must not be written; `None` when it may. */
  function Refusal(e: Evidence): Option<string> {
    if e.eventType == InterviewReschedule && e.eventAt.None? then Some("interview_datetime_unresolved")
    else if e.eventAt.None? && e.sourceDatetimeText.Some? then Some("event_datetime_unresolved")
    else if e.deadline.None? && e.sourceDeadlineText.Some? then Some("deadline_unresolved")
    else if (e.eventAt.Some? || e.deadline.Some?) && (e.timezone.None? || e.timezone.value == "") then Some("timezone_unresolved")
    else None
  }

  function SemanticFingerprint(e: Evidence): Fingerprint {
    Fingerprint(
      e.companyId, e.roleNormalized,
      if e.eventType == InterviewReschedule then Interview else e.eventType,
      if e.round.None? || e.round.value.normal == "" then None else Some(e.round.value.normal),
      e.eventAt, e.deadline)
  }

  // ---------- The database ----------

  datatype Application = Application(companyId: Option<int>, rawCompanyName: Option<string>, roleName: Option<string>,
                                     roleNormalized: Option<string>, status: Status, version: nat)

  datatype EventRow = EventRow(application: ApplicationId, eventType: EventType, round: Option<Text>,
                               startsAt: Option<Instant>, deadlineAt: Option<Instant>, timezone: Option<string>,
                               sourceText: Option<string>, status: EventStatus, fingerprint: Option<Fingerprint>)

  datatype ActionRow = ActionRow(application: ApplicationId, source: int, actionType: ActionType, title: string,
                                 dueAt: Option<Instant>, link: Option<int>, key: ActionKey)

  /** A status-history row; its deterministic id is made of these four values. */
  datatype StatusChange = StatusChange(source: int, application: ApplicationId, before: Status, after: Status)

  datatype EventChangeId = EventChangeId(source: int, event: EventId, fingerprint: Fingerprint)

  datatype EventChange = EventChange(event: EventId, startsAt: Option<Instant>, deadlineAt: Option<Instant>,
                                     timezone: Option<string>, status: EventStatus, source: int)

  datatype Store = Store(
    sources: map<int, Option<ApplicationId>>,
    applications: map<ApplicationId, Application>,
    statusHistory: set<StatusChange>,
    events: map<EventId, EventRow>,
    eventHistory: map<EventChangeId, EventChange>,
    actions: map<ActionId, ActionRow>,
    secureLinks: map<(int, string), int>)

  predicate IsOpen(status: Status) {
    status != Rejected && status != Withdrawn
  }

  /** The foreign key from emails to applications. */
  ghost predicate LinksResolve(s: Store) {
    forall x :: x in s.sources && s.sources[x].Some? ==> s.sources[x].value in s.applications
  }

  /** The unique index on application and semantic fingerprint. */
  ghost predicate EventsUnique(s: Store) {
    forall e, f | e in s.events && f in s.events
      :: (&& s.events[e].fingerprint.Some?
          && s.events[e].application == s.events[f].application
          && s.events[e].fingerprint == s.events[f].fingerprint) ==> e == f
  }

  /** The unique index on application and idempotency key. */
  ghost predicate ActionsUnique(s: Store) {
    forall a, b | a in s.actions && b in s.actions
      :: (s.actions[a].application == s.actions[b].application && s.actions[a].key == s.actions[b].key) ==> a == b
  }

  ghost predicate Valid(s: Store) {
    LinksResolve(s) && EventsUnique(s) && ActionsUnique(s)
  }

  function OpenApplications(s: Store, companyId: int, role: Option<string>): set<ApplicationId> {
    set a | a in s.applications
            && s.applications[a].companyId == Some(companyId)
            && IsOpen(s.applications[a].status)
            && (role.Some? ==> s.applications[a].roleNormalized == role)
  }

  function EventsWith(s: Store, application: ApplicationId, fingerprint: Fingerprint): set<EventId> {
    set e | e in s.events && s.events[e].application == application && s.events[e].fingerprint == Some(fingerprint)
  }

  function ActionsWith(s: Store, application: ApplicationId, key: ActionKey): set<ActionId> {
    set a | a in s.actions && s.actions[a].application == application && s.actions[a].key == key
  }

  function ActiveInterviews(s: Store, application: ApplicationId): set<EventId> {
    set e | e in s.events && s.events[e].application == application
            && s.events[e].eventType == Interview && s.events[e].status == Active
  }

  ghost function TheOne<T>(s: set<T>): T
    requires s != {}
  {
    var x :| x in s; x
  }

  // ---------- Resolution ----------

  datatype ApplicationResolution =
    | Existing(id: ApplicationId, status: Status, reason: string)
    | Create(id: ApplicationId, status: Status, reason: string)
    | Review(candidates: set<ApplicationId>, reason: string)

  function NewApplication(e: Evidence, reason: string): ApplicationResolution {
    Create(NewApplicationId(e.source), Unknown, reason)
  }

  function LinkedApplication(s: Store, source: int): Option<ApplicationId> {
    if source in s.sources && s.sources[source].Some? && s.sources[source].value in s.applications
    then s.sources[source] else None
  }

  ghost function ResolveApplication(s: Store, e: Evidence, selected: Option<ApplicationId>, forceCreate: bool): Result<ApplicationResolution> {
    var linked := LinkedApplication(s, e.source);
    if linked.Some? then
      if selected.Some? && selected != linked then Err("reviewed application conflicts with source-email identity")
      else Ok(Existing(linked.value, s.applications[linked.value].status, "source_email_link"))
    else if e.companyId.None? then
      if !forceCreate then Ok(Review({}, "canonical_company_unresolved"))
      else Ok(NewApplication(e, "reviewed_unresolved_company"))
    else
      var candidates := OpenApplications(s, e.companyId.value, e.roleNormalized);
      if selected.Some? then
        if selected.value !in candidates then Err("reviewed application is not an allowed candidate")
        else Ok(Existing(selected.value, s.applications[selected.value].status, "reviewed_application"))
      else if forceCreate then Ok(NewApplication(e, "reviewed_create_new"))
      else if candidates == {} then Ok(NewApplication(e, "no_existing_application"))
      else if |candidates| == 1 then
        if e.roleName.Some? && e.roleNormalized.None? then Ok(Review(candidates, "unnormalized_role_ambiguous"))
        else
          var only := TheOne(candidates);
          Ok(Existing(only, s.applications[only].status, "exact_company_role"))
      else Ok(Review(candidates, "multiple_open_applications"))
  }

  datatype EventResolution =
    | NoEvent(reason: string)
    | CreateEvent(id: EventId, fingerprint: Fingerprint, reason: string)
    | DuplicateEvent(id: EventId, fingerprint: Fingerprint, reason: string)
    | RescheduleEvent(id: EventId, fingerprint: Fingerprint, reason: string)
    | ReviewEvent(candidates: set<EventId>, reason: string)

  predicate SameRound(existing: Option<Text>, proposed: Option<Text>) {
    if existing.None? || proposed.None? then existing.None? && proposed.None?
    else existing.value.normal == proposed.value.normal
  }

  function RescheduleCandidates(s: Store, application: ApplicationId, e: Evidence): set<EventId> {
    var all := ActiveInterviews(s, application);
    var matches := set x | x in all && SameRound(s.events[x].round, e.round);
    if e.round.Some? && matches != {} then matches else all
  }

  /** The only same-round interview whose time a later email changes, if there is one. */
  ghost function SameRoundTimeChange(s: Store, application: ApplicationId, e: Evidence): Option<EventId> {
    var candidates := set x | x in ActiveInterviews(s, application) && SameRound(s.events[x].round, e.round);
    if e.eventAt.None? || |candidates| != 1 then None
    else if s.events[TheOne(candidates)].startsAt == e.eventAt then None
    else Some(TheOne(candidates))
  }

  ghost function ResolveEvent(s: Store, e: Evidence, application: ApplicationId, selected: Option<EventId>, treatAsNew: bool): Result<EventResolution> {
    var fingerprint := SemanticFingerprint(e);
    var newId := NewEventId(e.source, fingerprint);
    if TrackedEventType(e.eventType).None? then Ok(NoEvent("event_type_not_tracked"))
    else if e.eventType == InterviewReschedule then
      var candidates := RescheduleCandidates(s, application, e);
      if selected.Some? then
        if selected.value !in candidates then Err("reviewed event is not an allowed candidate")
        else Ok(RescheduleEvent(selected.value, fingerprint, "reviewed_reschedule_target"))
      else if treatAsNew then Ok(CreateEvent(newId, fingerprint, "reviewed_new_interview"))
      else if |candidates| == 1 then Ok(RescheduleEvent(TheOne(candidates), fingerprint, "single_active_interview"))
      else Ok(ReviewEvent(candidates, "reschedule_target_uncertain"))
    else
      var duplicates := if e.eventAt.Some? || e.deadline.Some? then EventsWith(s, application, fingerprint) else {};
      if duplicates != {} then Ok(DuplicateEvent(TheOne(duplicates), fingerprint, "semantic_duplicate"))
      else
        var changed := if e.eventType == Interview && !treatAsNew then SameRoundTimeChange(s, application, e) else None;
        if changed.Some? then Ok(RescheduleEvent(changed.value, fingerprint, "interview_time_changed"))
        else Ok(CreateEvent(newId, fingerprint, "new_event"))
  }

  // ---------- Planning ----------

  datatype EventMutation = NoMutation | CreateMutation | UpdateMutation

  datatype PlannedEvent = PlannedEvent(kind: EventMutation, id: Option<EventId>, eventType: Option<EventType>, round: Option<Text>,
                                       startsAt: Option<Instant>, deadlineAt: Option<Instant>, timezone: Option<string>,
                                       sourceText: Option<string>, fingerprint: Option<Fingerprint>)

  datatype PlannedAction = PlannedAction(id: ActionId, actionType: ActionType, title: string, dueAt: Option<Instant>,
                                         linkRef: Option<string>, key: ActionKey)

  datatype Plan = Plan(source: int, applicationId: ApplicationId, create: bool, reviewedCreateNew: bool,
                       companyId: Option<int>, rawCompanyName: Option<string>, roleName: Option<string>, roleNormalized: Option<string>,
                       statusBefore: Status, statusAfter: Status,
                       event: PlannedEvent, action: Option<PlannedAction>, refusal: Option<string>)

  function ResolvedId(r: EventResolution): Option<EventId> {
    if r.NoEvent? || r.ReviewEvent? then None else Some(r.id)
  }

  function ResolvedFingerprint(r: EventResolution): Option<Fingerprint> {
    if r.NoEvent? || r.ReviewEvent? then None else Some(r.fingerprint)
  }

  /** Python's `a or b` on optional texts. */
  function Or(a: Option<string>, b: Option<string>): Option<string> {
    if a.Some? && a.value != "" then a else b
  }

  function PlanEvent(e: Evidence, r: EventResolution, allowed: bool): PlannedEvent {
    PlannedEvent(
      if allowed && r.CreateEvent? then CreateMutation else if allowed && r.RescheduleEvent? then UpdateMutation else NoMutation,
      ResolvedId(r), TrackedEventType(e.eventType), e.round, e.eventAt, e.deadline, e.timezone,
      Or(e.sourceDatetimeText, e.sourceDeadlineText), ResolvedFingerprint(r))
  }

  const DEFAULT_TITLE := Text("Recruitment action required", "recruitment action required")

  function PlanAction(e: Evidence, r: EventResolution): Option<PlannedAction> {
    if !e.actionRequired then None
    else
      var title := if e.actionText.Some? && e.actionText.value.raw != "" then e.actionText.value else DEFAULT_TITLE;
      var fingerprint := if ResolvedFingerprint(r).Some? then ResolvedFingerprint(r).value else SemanticFingerprint(e);
      var key := ActionKey(fingerprint, ActionTypeFor(e), title.normal, e.deadline);
      Some(PlannedAction(NewActionId(e.source, key), ActionTypeFor(e), title.raw, e.deadline, e.actionLinkRef, key))
  }

  function PlanTransition(e: Evidence, application: ApplicationResolution, event: EventResolution): Result<Plan> {
    if application.Review? then Err("transition planning requires a resolved application")
    else if event.ReviewEvent? then Err("transition planning cannot bypass event review")
    else
      var refusal := Refusal(e);
      Ok(Plan(e.source, application.id, application.Create?, application.reason == "reviewed_create_new",
              e.companyId, e.rawCompanyName, e.roleName, e.roleNormalized,
              application.status,
              if refusal.None? then Next(application.status, DesiredStatus(e)) else application.status,
              PlanEvent(e, event, refusal.None?),
              if refusal.None? then PlanAction(e, event) else None,
              refusal))
  }

  // ---------- Applying a plan ----------

  datatype MutationResult = MutationResult(applicationId: Option<ApplicationId>, eventId: Option<EventId>,
                                           actionIds: seq<ActionId>, changed: bool, refusal: Option<string>)

  /** A linked application may differ from the planned one only when the plan is a create that
      describes the linked application. */
  predicate LinkAgrees(a: Application, id: ApplicationId, p: Plan) {
    id == p.applicationId ||
    (p.create && a.companyId == p.companyId && (p.roleNormalized.Some? ==> a.roleNormalized == p.roleNormalized))
  }

  function Link(s: Store, p: Plan, a: ApplicationId): Store {
    s.(sources := s.sources[p.source := Some(a)])
  }

  ghost function ResolveForWrite(s: Store, p: Plan): (r: Result<(Store, ApplicationId, bool)>)
    requires p.source in s.sources
    ensures r.Ok? ==> r.value.1 in r.value.0.applications
  {
    if s.sources[p.source].Some? then
      var linked := s.sources[p.source].value;
      if linked !in s.applications then Err("source email references a missing application")
      else if !LinkAgrees(s.applications[linked], linked, p) then Err("source-email application changed after resolution")
      else Ok((s, linked, false))
    else if p.create then
      var candidates := if p.companyId.Some? && !p.reviewedCreateNew then OpenApplications(s, p.companyId.value, p.roleNormalized) else {};
      if |candidates| > 1 then Err("application identity became ambiguous during persistence")
      else if candidates != {} then Ok((Link(s, p, TheOne(candidates)), TheOne(candidates), true))
      else if p.applicationId in s.applications then Err("duplicate key")
      else
        var row := Application(p.companyId, p.rawCompanyName, p.roleName, p.roleNormalized, Unknown, 1);
        Ok((Link(s.(applications := s.applications[p.applicationId := row]), p, p.applicationId), p.applicationId, true))
    else if p.applicationId !in s.applications then Err("resolved application does not exist")
    else Ok((Link(s, p, p.applicationId), p.applicationId, true))
  }

  function ApplyStatus(s: Store, p: Plan, a: ApplicationId): (Store, bool)
    requires a in s.applications
  {
    var row := s.applications[a];
    var target := Next(row.status, p.statusAfter);
    if target == row.status then (s, false)
    else
      (s.(statusHistory := s.statusHistory + {StatusChange(p.source, a, row.status, target)},
          applications := s.applications[a := row.(status := target, version := row.version + 1)]), true)
  }

  function PlannedRow(e: PlannedEvent, a: ApplicationId, status: EventStatus): EventRow
    requires e.eventType.Some?
  {
    EventRow(a, e.eventType.value, e.round, e.startsAt, e.deadlineAt, e.timezone, e.sourceText, status, e.fingerprint)
  }

  /** The row after a reschedule; type and status stay. */
  function Rescheduled(row: EventRow, e: PlannedEvent): EventRow {
    row.(round := e.round, startsAt := e.startsAt, deadlineAt := e.deadlineAt, timezone := e.timezone,
         sourceText := e.sourceText, fingerprint := e.fingerprint)
  }

  /** Inserts the planned event unless the application has one with its fingerprint. */
  ghost function CreatePlanned(s: Store, e: PlannedEvent, a: ApplicationId): Result<(Store, Option<EventId>, bool)>
    requires e.id.Some? && e.eventType.Some? && e.fingerprint.Some?
  {
    var same := EventsWith(s, a, e.fingerprint.value);
    if same != {} then Ok((s, Some(TheOne(same)), false))
    else if e.id.value in s.events then Err("duplicate key")
    else Ok((s.(events := s.events[e.id.value := PlannedRow(e, a, Active)]), e.id, true))
  }

  /** The new row, with the old times in the history. */
  function Rewritten(s: Store, source: int, id: EventId, e: PlannedEvent): Store
    requires id in s.events && e.fingerprint.Some?
  {
    var change, row := EventChangeId(source, id, e.fingerprint.value), s.events[id];
    s.(events := s.events[id := Rescheduled(row, e)],
       eventHistory := if change in s.eventHistory then s.eventHistory
                       else s.eventHistory[change := EventChange(id, row.startsAt, row.deadlineAt, row.timezone, row.status, source)])
  }

  /** Rewrites an active interview, keeping its old times in the history. */
  function ReschedulePlanned(s: Store, source: int, e: PlannedEvent, a: ApplicationId): Result<(Store, Option<EventId>, bool)>
    requires e.id.Some? && e.fingerprint.Some?
  {
    var id, fingerprint := e.id.value, e.fingerprint.value;
    if id !in ActiveInterviews(s, a) then Err("reschedule target is no longer an active interview")
    else if Rescheduled(s.events[id], e) == s.events[id] then Ok((s, e.id, false))
    else if EventsWith(s, a, fingerprint) - {id} != {} then Err("duplicate key")
    else Ok((Rewritten(s, source, id, e), e.id, true))
  }

  lemma RescheduleChanges(row: EventRow, e: PlannedEvent)
    ensures Rescheduled(row, e) != row <==>
              row.round != e.round || row.startsAt != e.startsAt || row.deadlineAt != e.deadlineAt
              || row.timezone != e.timezone || row.sourceText != e.sourceText || row.fingerprint != e.fingerprint
  {
  }

  ghost function ApplyEvent(s: Store, p: Plan, a: ApplicationId): Result<(Store, Option<EventId>, bool)> {
    var e := p.event;
    if e.kind == NoMutation then Ok((s, e.id, false))
    else if e.id.None? || e.eventType.None? || e.fingerprint.None? then Err("event mutation is incomplete")
    else if e.kind == CreateMutation then CreatePlanned(s, e, a)
    else ReschedulePlanned(s, p.source, e, a)
  }

  ghost function ApplyAction(s: Store, p: Plan, a: ApplicationId): Result<(Store, seq<ActionId>, bool)> {
    if p.action.None? then Ok((s, [], false))
    else
      var action := p.action.value;
      if action.linkRef.Some? && (p.source, action.linkRef.value) !in s.secureLinks then
        Err("action link reference does not resolve to encrypted storage")
      else
        var link := if action.linkRef.Some? then Some(s.secureLinks[(p.source, action.linkRef.value)]) else None;
        var same := ActionsWith(s, a, action.key);
        if same != {} then Ok((s, [TheOne(same)], false))
        else if action.id in s.actions then Err("duplicate key")
        else
          var row := ActionRow(a, p.source, action.actionType, action.title, action.dueAt, link, action.key);
          Ok((s.(actions := s.actions[action.id := row]), [action.id], true))
  }

  /** The part of the transaction after the email is linked. */
  ghost function ApplyStages(s: Store, p: Plan, a: ApplicationId, linked: bool): Result<(Store, MutationResult)>
    requires a in s.applications
  {
    var (s2, moved) := ApplyStatus(s, p, a);
    var (s3, eventId, eventChanged) :- ApplyEvent(s2, p, a);
    var (s4, actionIds, actionChanged) :- ApplyAction(s3, p, a);
    Ok((s4, MutationResult(Some(a), eventId, actionIds, linked || moved || eventChanged || actionChanged, None)))
  }

  /** The whole transaction; an error leaves the database as it was. */
  ghost function Apply(s: Store, p: Plan): Result<(Store, MutationResult)> {
    if p.refusal.Some? then
      Ok((s, MutationResult(if p.create then None else Some(p.applicationId), None, [], false, p.refusal)))
    else if p.source !in s.sources then Err("source email does not exist")
    else
      var (s1, a, linked) :- ResolveForWrite(s, p);
      ApplyStages(s1, p, a, linked)
  }

  // ---------- The transaction as a method ----------

  class RecruitmentDomainStore {
    var sources: map<int, Option<ApplicationId>>
    var applications: map<ApplicationId, Application>
    var statusHistory: set<StatusChange>
    var events: map<EventId, EventRow>
    var eventHistory: map<EventChangeId, EventChange>
    var actions: map<ActionId, ActionRow>
    var secureLinks: map<(int, string), int>

    constructor (s: Store)
      ensures Snapshot() == s
    {
      sources, applications, statusHistory := s.sources, s.applications, s.statusHistory;
      events, eventHistory, actions, secureLinks := s.events, s.eventHistory, s.actions, s.secureLinks;
    }

    function Snapshot(): Store
      reads this
    {
      Store(sources, applications, statusHistory, events, eventHistory, actions, secureLinks)
    }

    method ResolveApplicationForWrite(p: Plan) returns (r: Result<(ApplicationId, bool)>)
      requires p.source in sources
      modifies this`sources, this`applications
      ensures match ResolveForWrite(old(Snapshot()), p)
              case Ok((s, a, linked)) => r == Ok((a, linked)) && Snapshot() == s && a in applications
              case Err(error) => r == Err(error)
    {
      if sources[p.source].Some? {
        var linked := sources[p.source].value;
        if linked !in applications { return Err("source email references a missing application"); }
        if !LinkAgrees(applications[linked], linked, p) { return Err("source-email application changed after resolution"); }
        return Ok((linked, false));
      }
      var id := p.applicationId;
      if p.create {
        var candidates: set<ApplicationId> := {};
        if p.companyId.Some? && !p.reviewedCreateNew {
          candidates := OpenApplications(Snapshot(), p.companyId.value, p.roleNormalized);
        }
        if |candidates| > 1 { return Err("application identity became ambiguous during persistence"); }
        if candidates != {} {
          ghost var only := TheOne(candidates);
          SingleMember(candidates, only);
          id :| id in candidates;
        } else {
          if id in applications { return Err("duplicate key"); }
          applications := applications[id := Application(p.companyId, p.rawCompanyName, p.roleName, p.roleNormalized, Unknown, 1)];
        }
      } else if id !in applications {
        return Err("resolved application does not exist");
      }
      sources := sources[p.source := Some(id)];
      r := Ok((id, true));
    }

    method ApplyApplicationStatus(p: Plan, a: ApplicationId) returns (changed: bool)
      requires a in applications
      modifies this`applications, this`statusHistory
      ensures (Snapshot(), changed) == ApplyStatus(old(Snapshot()), p, a)
    {
      var application := applications[a];
      var target := Next(application.status, p.statusAfter);
      if target == application.status { return false; }
      var change := StatusChange(p.source, a, application.status, target);
      statusHistory := statusHistory + {change};
      applications := applications[a := application.(status := target, version := application.version + 1)];
      changed := true;
    }

    method CreatePlannedEvent(p: Plan, a: ApplicationId) returns (r: Result<(Option<EventId>, bool)>)
      requires EventsUnique(Snapshot())
      requires p.event.id.Some? && p.event.eventType.Some? && p.event.fingerprint.Some?
      modifies this`events
      ensures match CreatePlanned(old(Snapshot()), p.event, a)
              case Ok((s, id, changed)) => r == Ok((id, changed)) && Snapshot() == s
              case Err(error) => r == Err(error)
    {
      var id := p.event.id.value;
      var same := EventsWith(Snapshot(), a, p.event.fingerprint.value);
      if same != {} {
        var existing :| existing in same;
        return Ok((Some(existing), false));
      }
      if id in events { return Err("duplicate key"); }
      events := events[id := PlannedRow(p.event, a, Active)];
      r := Ok((Some(id), true));
    }

    method RewriteEvent(source: int, id: EventId, e: PlannedEvent)
      requires id in events && e.fingerprint.Some?
      modifies this`events, this`eventHistory
      ensures Snapshot() == Rewritten(old(Snapshot()), source, id, e)
    {
      var change, existing := EventChangeId(source, id, e.fingerprint.value), events[id];
      if change !in eventHistory {
        eventHistory := eventHistory[change := EventChange(id, existing.startsAt, existing.deadlineAt, existing.timezone,
                                                           existing.status, source)];
      }
      events := events[id := Rescheduled(existing, e)];
    }

    method ReschedulePlannedEvent(p: Plan, a: ApplicationId) returns (r: Result<(Option<EventId>, bool)>)
      requires p.event.id.Some? && p.event.fingerprint.Some?
      modifies this`events, this`eventHistory
      ensures match ReschedulePlanned(old(Snapshot()), p.source, p.event, a)
              case Ok((s, id, changed)) => r == Ok((id, changed)) && Snapshot() == s
              case Err(error) => r == Err(error)
    {
      var e, id := p.event, p.event.id.value;
      if id !in events || events[id].application != a || events[id].eventType != Interview || events[id].status != Active {
        return Err("reschedule target is no longer an active interview");
      }
      var existing := events[id];
      RescheduleChanges(existing, e);
      var changed := existing.round != e.round || existing.startsAt != e.startsAt || existing.deadlineAt != e.deadlineAt
                     || existing.timezone != e.timezone || existing.sourceText != e.sourceText || existing.fingerprint != e.fingerprint;
      if !changed { return Ok((Some(id), false)); }
      if EventsWith(Snapshot(), a, e.fingerprint.value) - {id} != {} { return Err("duplicate key"); }
      RewriteEvent(p.source, id, e);
      r := Ok((Some(id), true));
    }

    method ApplyEventMutation(p: Plan, a: ApplicationId) returns (r: Result<(Option<EventId>, bool)>)
      requires EventsUnique(Snapshot())
      modifies this`events, this`eventHistory
      ensures match ApplyEvent(old(Snapshot()), p, a)
              case Ok((s, id, changed)) => r == Ok((id, changed)) && Snapshot() == s
              case Err(error) => r == Err(error)
    {
      var e := p.event;
      if e.kind == NoMutation { return Ok((e.id, false)); }
      if e.id.None? || e.eventType.None? || e.fingerprint.None? { return Err("event mutation is incomplete"); }
      if e.kind == CreateMutation { r := CreatePlannedEvent(p, a); } else { r := ReschedulePlannedEvent(p, a); }
    }

    method ApplyActionItem(p: Plan, a: ApplicationId) returns (r: Result<(seq<ActionId>, bool)>)
      requires ActionsUnique(Snapshot())
      modifies this`actions
      ensures match ApplyAction(old(Snapshot()), p, a)
              case Ok((s, ids, changed)) => r == Ok((ids, changed)) && Snapshot() == s
              case Err(error) => r == Err(error)
    {
      if p.action.None? { return Ok(([], false)); }
      var action := p.action.value;
      var link: Option<int> := None;
      if action.linkRef.Some? {
        if (p.source, action.linkRef.value) !in secureLinks {
          return Err("action link reference does not resolve to encrypted storage");
        }
        link := Some(secureLinks[(p.source, action.linkRef.value)]);
      }
      var same := ActionsWith(Snapshot(), a, action.key);
      if same != {} {
        var existing :| existing in same;
        return Ok(([existing], false));
      }
      if action.id in actions { return Err("duplicate key"); }
      actions := actions[action.id := ActionRow(a, p.source, action.actionType, action.title, action.dueAt, link, action.key)];
      r := Ok(([action.id], true));
    }

    method ApplyTransition(p: Plan) returns (r: Result<MutationResult>)
      requires Valid(Snapshot())
      modifies this
      ensures match Apply(old(Snapshot()), p)
              case Ok((s, result)) => r == Ok(result) && Snapshot() == s
              case Err(error) => r == Err(error) && Snapshot() == old(Snapshot())
    {
      if p.refusal.Some? {
        return Ok(MutationResult(if p.create then None else Some(p.applicationId), None, [], false, p.refusal));
      }
      if p.source !in sources { return Err("source email does not exist"); }
      var saved := Snapshot();
      var resolved := ResolveApplicationForWrite(p);
      if resolved.Err? { Rollback(saved); return Err(resolved.error); }
      var (a, linked) := resolved.value;
      var moved := ApplyApplicationStatus(p, a);
      var event := ApplyEventMutation(p, a);
      if event.Err? { Rollback(saved); return Err(event.error); }
      var action := ApplyActionItem(p, a);
      if action.Err? { Rollback(saved); return Err(action.error); }
      r := Ok(MutationResult(Some(a), event.value.0, action.value.0, linked || moved || event.value.1 || action.value.1, None));
    }

    method Rollback(saved: Store)
      modifies this
      ensures Snapshot() == saved
    {
      sources, applications, statusHistory := saved.sources, saved.applications, saved.statusHistory;
      events, eventHistory, actions, secureLinks := saved.events, saved.eventHistory, saved.actions, saved.secureLinks;
    }
  }

  lemma SingleMember<T>(s: set<T>, x: T)
    requires x in s && |s| <= 1
    ensures s == {x}
  {
    assert |s - {x}| == |s| - 1;
  }
}
