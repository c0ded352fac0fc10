/** What one email does to the database, said of the email and of the rows alone. */
module DomainLaws {
  import opened Wrappers
  import opened ApplicationStatus
  import opened Domain
  import opened DomainCommits

  // ---------- Which emails are written ----------

  /** Every time the email speaks of is resolved, and a resolved time has its zone. */
  predicate TimesResolved(e: Evidence) {
    && (e.sourceDatetimeText.Some? || e.eventType == InterviewReschedule ==> e.eventAt.Some?)
    && (e.sourceDeadlineText.Some? ==> e.deadline.Some?)
    && (e.eventAt.Some? || e.deadline.Some? ==> e.timezone.Some? && e.timezone.value != "")
  }

  lemma WrittenExactly(e: Evidence, app: ApplicationResolution, event: EventResolution, p: Plan)
    requires PlanTransition(e, app, event) == Ok(p)
    ensures p.refusal.None? <==> TimesResolved(e)
    ensures p.refusal.Some? ==> p.event.kind == NoMutation && p.action.None? && p.statusAfter == app.status
    ensures p.refusal.Some? ==> forall s :: Apply(s, p).Ok? && Apply(s, p).value.0 == s
  {
  }

  // ---------- The application an email belongs to ----------

  /** The applications a human may pick: same company, not closed, and of the email's role if it has one. */
  function Matches(s: Store, e: Evidence): set<ApplicationId> {
    set a | a in s.applications && e.companyId.Some? && s.applications[a].companyId == e.companyId
            && s.applications[a].status != Rejected && s.applications[a].status != Withdrawn
            && (e.roleNormalized.Some? ==> s.applications[a].roleNormalized == e.roleNormalized)
  }

  predicate LinkedTo(s: Store, e: Evidence, a: ApplicationId) {
    e.source in s.sources && s.sources[e.source] == Some(a) && a in s.applications
  }

  predicate Unlinked(s: Store, e: Evidence) {
    !(e.source in s.sources && s.sources[e.source].Some? && s.sources[e.source].value in s.applications)
  }

  lemma MatchesAreOpen(s: Store, e: Evidence)
    requires e.companyId.Some?
    ensures OpenApplications(s, e.companyId.value, e.roleNormalized) == Matches(s, e)
  {
  }

  /** A linked email stays with its application. */
  lemma LinkedEmail(s: Store, e: Evidence, a: ApplicationId, selected: Option<ApplicationId>, forceCreate: bool)
    requires LinkedTo(s, e, a)
    ensures var r := ResolveApplication(s, e, selected, forceCreate);
            if selected == None || selected == Some(a) then r.Ok? && r.value.Existing? && r.value.id == a && r.value.status == s.applications[a].status
            else r.Err?
  {
  }

  /** A picked application is taken exactly when it may be picked. */
  lemma PickedApplication(s: Store, e: Evidence, a: ApplicationId, forceCreate: bool)
    requires Unlinked(s, e) && e.companyId.Some?
    ensures var r := ResolveApplication(s, e, Some(a), forceCreate);
            if a in Matches(s, e) then r.Ok? && r.value.Existing? && r.value.id == a && r.value.status == s.applications[a].status
            else r.Err?
  {
    MatchesAreOpen(s, e);
  }

  /** A forced create opens a new application of its own. */
  lemma ForcedApplication(s: Store, e: Evidence)
    requires Unlinked(s, e)
    ensures var r := ResolveApplication(s, e, None, true);
            && r.Ok? && r.value.Create? && r.value.id == NewApplicationId(e.source) && r.value.status == Unknown
            && (r.value.reason == "reviewed_create_new" <==> e.companyId.Some?)
  {
  }

  /** Undirected: no match opens a new application, one match of a known role is taken, and a human is
      asked otherwise, with the matches to choose from. */
  lemma UndirectedApplication(s: Store, e: Evidence)
    requires Unlinked(s, e)
    ensures var r := ResolveApplication(s, e, None, false);
            r.Ok? &&
            if e.companyId.None? then r.value.Review? && r.value.candidates == {}
            else if Matches(s, e) == {} then r.value.Create? && r.value.id == NewApplicationId(e.source) && r.value.status == Unknown
            else if |Matches(s, e)| > 1 || (e.roleName.Some? && e.roleNormalized.None?) then
              r.value.Review? && r.value.candidates == Matches(s, e)
            else r.value.Existing? && Matches(s, e) == {r.value.id} && r.value.status == s.applications[r.value.id].status
  {
    if e.companyId.Some? {
      MatchesAreOpen(s, e);
      if |Matches(s, e)| == 1 { OneMember(Matches(s, e), TheOne(Matches(s, e))); }
    }
  }

  lemma OneMember<T>(s: set<T>, x: T)
    requires |s| == 1 && x in s
    ensures s == {x}
  {
    assert |s - {x}| == 0;
  }

  /** The commit links the email, and a new row carries the email's company and role. */
  lemma CommittedApplication(e: Evidence, app: ApplicationResolution, event: EventResolution, p: Plan, s: Store, s': Store, r: MutationResult)
    requires PlanTransition(e, app, event) == Ok(p) && p.refusal.None? && Apply(s, p) == Ok((s', r))
    ensures r.applicationId.Some? && LinkedTo(s', e, r.applicationId.value)
    ensures r.applicationId.value !in s.applications ==>
              var row := s'.applications[r.applicationId.value];
              && app.Create? && r.applicationId.value == app.id
              && row.companyId == e.companyId && row.rawCompanyName == e.rawCompanyName
              && row.roleName == e.roleName && row.roleNormalized == e.roleNormalized
    ensures app.Existing? ==> r.applicationId.value == app.id
    ensures forall a :: a in s.applications && a != r.applicationId.value ==> a in s'.applications && s'.applications[a] == s.applications[a]
  {
    ApplyCommits(s, p, s', r);
  }

  // ---------- The status an email leads to ----------

  /** Decisions are final; the others lead forward through applied, assessment and interview, never back. */
  predicate MovesStatus(e: Evidence, before: Status, after: Status) {
    if before == Offer || before == Rejected || before == Withdrawn then after == before
    else
      match e.eventType
      case OfferNotice => after == Offer
      case Rejection => after == Rejected
      case ApplicationReceived => after == if before == Unknown then Applied else before
      case Assessment => after == if before == Unknown || before == Applied then AssessmentPending else before
      case Interview =>
        if e.eventAt.None? then
          after == if before == InterviewScheduled || before == InterviewCompleted then before else InterviewPending
        else after == if before == InterviewCompleted then before else InterviewScheduled
      case InterviewReschedule => after == if before == InterviewCompleted then before else InterviewScheduled
      case _ => after == before
  }

  function StatusIn(s: Store, a: ApplicationId): Status {
    if a in s.applications then s.applications[a].status else Unknown
  }

  /** However old the plan: the commit moves the status as the email says, and records that move. */
  lemma EmailMovesStatus(e: Evidence, app: ApplicationResolution, event: EventResolution, p: Plan, s: Store, s': Store, r: MutationResult)
    requires PlanTransition(e, app, event) == Ok(p) && p.refusal.None? && Apply(s, p) == Ok((s', r))
    requires r.applicationId.Some? ==> Precedes(app.status, StatusIn(s, r.applicationId.value))
    ensures r.applicationId.Some?
    ensures var a := r.applicationId.value;
            && MovesStatus(e, StatusIn(s, a), StatusIn(s', a))
            && s'.statusHistory == s.statusHistory + (if StatusIn(s', a) == StatusIn(s, a) then {}
                                                      else {StatusChange(e.source, a, StatusIn(s, a), StatusIn(s', a))})
  {
    ApplyCommits(s, p, s', r);
    var before := StatusIn(s, r.applicationId.value);
    StaleTarget(app.status, before, DesiredStatus(e));
    DesiredMoves(e, before);
    var none: set<StatusChange> := {};
    assert s.statusHistory + none == s.statusHistory;
  }

  lemma DesiredMoves(e: Evidence, before: Status)
    ensures MovesStatus(e, before, Next(before, DesiredStatus(e)))
  {
  }

  // ---------- The event an email is about ----------

  function RoundOf(round: Option<Text>): Option<string> {
    if round.None? then None else Some(round.value.normal)
  }

  /** The active interviews of an application. */
  function Interviews(s: Store, a: ApplicationId): set<EventId> {
    set x | x in s.events && s.events[x].application == a && s.events[x].eventType == Interview && s.events[x].status == Active
  }

  function OfRound(s: Store, a: ApplicationId, e: Evidence): set<EventId> {
    set x | x in Interviews(s, a) && RoundOf(s.events[x].round) == RoundOf(e.round)
  }

  /** What a reschedule may be about: the interviews of its round if it names one that exists, or all. */
  function Targets(s: Store, a: ApplicationId, e: Evidence): set<EventId> {
    if e.round.Some? && OfRound(s, a, e) != {} then OfRound(s, a, e) else Interviews(s, a)
  }

  lemma TargetsAreCandidates(s: Store, a: ApplicationId, e: Evidence)
    ensures RescheduleCandidates(s, a, e) == Targets(s, a, e)
    ensures ActiveInterviews(s, a) == Interviews(s, a)
    ensures (set x | x in ActiveInterviews(s, a) && SameRound(s.events[x].round, e.round)) == OfRound(s, a, e)
  {
  }

  /** An email that reschedules moves the picked target, or the only one; else a new interview or a question. */
  lemma RescheduleTarget(s: Store, e: Evidence, a: ApplicationId, selected: Option<EventId>, treatAsNew: bool)
    requires e.eventType == InterviewReschedule
    ensures var r := ResolveEvent(s, e, a, selected, treatAsNew);
            if selected.Some? then
              if selected.value in Targets(s, a, e) then r.Ok? && r.value.RescheduleEvent? && r.value.id == selected.value else r.Err?
            else
              r.Ok? &&
              if treatAsNew then r.value.CreateEvent? && r.value.id == NewEventId(e.source, r.value.fingerprint)
              else if |Targets(s, a, e)| == 1 then r.value.RescheduleEvent? && Targets(s, a, e) == {r.value.id}
              else r.value.ReviewEvent? && r.value.candidates == Targets(s, a, e)
  {
    TargetsAreCandidates(s, a, e);
    if |Targets(s, a, e)| == 1 { OneMember(Targets(s, a, e), TheOne(Targets(s, a, e))); }
  }

  /** Any other email that is about no event: a general update, or one of unknown kind. */
  lemma UntrackedEmail(s: Store, e: Evidence, a: ApplicationId, selected: Option<EventId>, treatAsNew: bool)
    ensures var r := ResolveEvent(s, e, a, selected, treatAsNew);
            e.eventType == GeneralUpdate || e.eventType == UnknownEvent <==> r.Ok? && r.value.NoEvent?
  {
  }

  /** The rows that say the same as the email: same identity, dated. */
  function Repeats(s: Store, a: ApplicationId, e: Evidence): set<EventId> {
    set x | x in s.events && s.events[x].application == a && s.events[x].fingerprint == Some(SemanticFingerprint(e))
            && (e.eventAt.Some? || e.deadline.Some?)
  }

  /** An interview of this round at another time, if it is the only one of its round. */
  predicate Moved(s: Store, a: ApplicationId, e: Evidence, x: EventId) {
    e.eventAt.Some? && OfRound(s, a, e) == {x} && x in s.events && s.events[x].startsAt != e.eventAt
  }

  /** Every other tracked email repeats a row, or moves the only interview of its round, or is a new event. */
  lemma OrdinaryEvent(s: Store, e: Evidence, a: ApplicationId, selected: Option<EventId>, treatAsNew: bool)
    requires e.eventType != InterviewReschedule && e.eventType != GeneralUpdate && e.eventType != UnknownEvent
    ensures var r := ResolveEvent(s, e, a, selected, treatAsNew);
            && r.Ok?
            && (r.value.DuplicateEvent? <==> Repeats(s, a, e) != {})
            && (r.value.DuplicateEvent? ==> r.value.id in Repeats(s, a, e))
            && (r.value.RescheduleEvent? <==> Repeats(s, a, e) == {} && e.eventType == Interview && !treatAsNew
                                               && exists x :: Moved(s, a, e, x))
            && (r.value.RescheduleEvent? ==> Moved(s, a, e, r.value.id))
            && (!r.value.DuplicateEvent? && !r.value.RescheduleEvent? ==>
                  r.value.CreateEvent? && r.value.id == NewEventId(e.source, r.value.fingerprint))
  {
    TargetsAreCandidates(s, a, e);
    RepeatsAreEvents(s, e, a);
    if |OfRound(s, a, e)| == 1 { OneMember(OfRound(s, a, e), TheOne(OfRound(s, a, e))); }
    MovedIsTimeChange(s, e, a);
  }

  lemma RepeatsAreEvents(s: Store, e: Evidence, a: ApplicationId)
    ensures Repeats(s, a, e) == if e.eventAt.Some? || e.deadline.Some? then EventsWith(s, a, SemanticFingerprint(e)) else {}
  {
  }

  lemma MovedIsTimeChange(s: Store, e: Evidence, a: ApplicationId)
    ensures SameRoundTimeChange(s, a, e).Some? <==> exists x :: Moved(s, a, e, x)
    ensures SameRoundTimeChange(s, a, e).Some? ==> Moved(s, a, e, SameRoundTimeChange(s, a, e).value)
  {
    TargetsAreCandidates(s, a, e);
    if |OfRound(s, a, e)| == 1 { OneMember(OfRound(s, a, e), TheOne(OfRound(s, a, e))); }
    if SameRoundTimeChange(s, a, e).Some? {
      assert Moved(s, a, e, SameRoundTimeChange(s, a, e).value);
    } else {
      forall x ensures !Moved(s, a, e, x) {
        if Moved(s, a, e, x) { MovedChanges(s, e, a, x); }
      }
    }
  }

  lemma MovedChanges(s: Store, e: Evidence, a: ApplicationId, x: EventId)
    requires Moved(s, a, e, x)
    ensures SameRoundTimeChange(s, a, e) == Some(x)
  {
    TargetsAreCandidates(s, a, e);
    assert TheOne(OfRound(s, a, e)) in OfRound(s, a, e);
  }

  /** Every resolved event carries the identity of the email. */
  lemma ResolvedIdentity(s: Store, e: Evidence, a: ApplicationId, selected: Option<EventId>, treatAsNew: bool)
    ensures var r := ResolveEvent(s, e, a, selected, treatAsNew);
            r.Ok? && !r.value.NoEvent? && !r.value.ReviewEvent? ==> r.value.fingerprint == SemanticFingerprint(e)
  {
  }

  /** Two emails are about the same event exactly when company, role, kind (a reschedule is about an
      interview), round and both times agree. */
  lemma SameIdentityExactly(x: Evidence, y: Evidence)
    ensures SemanticFingerprint(x) == SemanticFingerprint(y) <==>
              && x.companyId == y.companyId && x.roleNormalized == y.roleNormalized && x.eventAt == y.eventAt && x.deadline == y.deadline
              && (x.eventType == y.eventType || (x.eventType in {Interview, InterviewReschedule} && y.eventType in {Interview, InterviewReschedule}))
              && (var noX, noY := x.round.None? || x.round.value.normal == "", y.round.None? || y.round.value.normal == "";
                  noX == noY && (!noX ==> x.round.value.normal == y.round.value.normal))
  {
  }

  // ---------- The event row an email leaves ----------

  /** Between link and event stage nothing touches events, actions or links to encrypted storage. */
  lemma Staged(s: Store, p: Plan, s': Store, r: MutationResult)
    returns (s2: Store, a: ApplicationId, s3: Store, id: Option<EventId>, moved: bool, ids: seq<ActionId>, changed: bool)
    requires Apply(s, p) == Ok((s', r)) && p.refusal.None?
    ensures r.applicationId == Some(a) && r.eventId == id && r.actionIds == ids
    ensures ApplyEvent(s2, p, a) == Ok((s3, id, moved)) && ApplyAction(s3, p, a) == Ok((s', ids, changed))
    ensures s2.events == s.events && s2.eventHistory == s.eventHistory && s2.actions == s.actions && s2.secureLinks == s.secureLinks
  {
    var (s1, found, linked) := ResolveForWrite(s, p).value;
    ResolveCommits(s, p, s1, found, linked);
    a := found;
    s2, s3, id, moved, ids, changed := StagesOf(s1, p, a, linked, s', r);
  }

  lemma StagesOf(s: Store, p: Plan, a: ApplicationId, linked: bool, s': Store, r: MutationResult)
    returns (s2: Store, s3: Store, id: Option<EventId>, moved: bool, ids: seq<ActionId>, changed: bool)
    requires a in s.applications && ApplyStages(s, p, a, linked) == Ok((s', r))
    ensures r.applicationId == Some(a) && r.eventId == id && r.actionIds == ids
    ensures ApplyEvent(s2, p, a) == Ok((s3, id, moved)) && ApplyAction(s3, p, a) == Ok((s', ids, changed))
    ensures s2.events == s.events && s2.eventHistory == s.eventHistory && s2.actions == s.actions && s2.secureLinks == s.secureLinks
  {
    s2 := ApplyStatus(s, p, a).0;
    s3, id, moved := ApplyEvent(s2, p, a).value.0, ApplyEvent(s2, p, a).value.1, ApplyEvent(s2, p, a).value.2;
    ids, changed := ApplyAction(s3, p, a).value.1, ApplyAction(s3, p, a).value.2;
  }

  /** A row that says what the email says, of the kind its tracked type has. */
  predicate Says(row: EventRow, e: Evidence, fingerprint: Fingerprint) {
    && row.round == e.round && row.startsAt == e.eventAt && row.deadlineAt == e.deadline && row.timezone == e.timezone
    && row.sourceText == (if e.sourceDatetimeText.Some? && e.sourceDatetimeText.value != "" then e.sourceDatetimeText
                          else e.sourceDeadlineText)
    && row.fingerprint == Some(fingerprint)
  }

  predicate OthersStay(s: Store, s': Store, id: EventId) {
    && s.events.Keys <= s'.events.Keys <= s.events.Keys + {id}
    && forall x :: x in s.events && x != id ==> s'.events[x] == s.events[x]
  }

  /** A new event is an active row that says what the email says; a row of the same identity is kept instead. */
  lemma CommittedEventRow(e: Evidence, app: ApplicationResolution, event: EventResolution, p: Plan, s: Store, s': Store, r: MutationResult)
    requires PlanTransition(e, app, event) == Ok(p) && p.refusal.None? && Apply(s, p) == Ok((s', r)) && event.CreateEvent?
    ensures r.applicationId.Some? && r.eventId.Some? && r.eventId.value in s'.events
    ensures var id, a := r.eventId.value, r.applicationId.value;
            && OthersStay(s, s', id) && s'.eventHistory == s.eventHistory
            && s'.events[id].application == a && s'.events[id].fingerprint == Some(event.fingerprint)
            && (id !in s.events ==>
                  && id == event.id && Says(s'.events[id], e, event.fingerprint) && s'.events[id].status == Active
                  && s'.events[id].eventType == (if e.eventType == InterviewReschedule then Interview else e.eventType))
            && (id in s.events ==> s'.events == s.events)
  {
    var s2, a, s3, id, moved, ids, changed := Staged(s, p, s', r);
    CreatedRow(s2, p, a, s3, id, moved);
    ActionFrame(s3, p, a);
  }

  lemma CreatedRow(s: Store, p: Plan, a: ApplicationId, s': Store, id: Option<EventId>, moved: bool)
    requires p.event.kind == CreateMutation && ApplyEvent(s, p, a) == Ok((s', id, moved))
    ensures p.event.id.Some? && p.event.eventType.Some? && p.event.fingerprint.Some? && id.Some? && id.value in s'.events
    ensures OthersStay(s, s', id.value) && s'.eventHistory == s.eventHistory
    ensures s'.events[id.value].application == a && s'.events[id.value].fingerprint == p.event.fingerprint
    ensures id.value !in s.events ==> id == p.event.id && s'.events[id.value] == PlannedRow(p.event, a, Active)
    ensures id.value in s.events ==> s'.events == s.events
  {
    var same := EventsWith(s, a, p.event.fingerprint.value);
    if same != {} { assert TheOne(same) in same; }
  }

  /** The old times of a rewritten row. */
  predicate Remembers(s: Store, s': Store, source: int, id: EventId, fingerprint: Fingerprint)
    requires id in s.events
  {
    var change, row := EventChangeId(source, id, fingerprint), s.events[id];
    && change in s'.eventHistory
    && (change !in s.eventHistory ==>
          s'.eventHistory[change] == EventChange(id, row.startsAt, row.deadlineAt, row.timezone, row.status, source))
    && forall c :: c in s.eventHistory ==> c in s'.eventHistory && s'.eventHistory[c] == s.eventHistory[c]
  }

  /** A rescheduled interview says what the email says, keeps its kind, status and application, and its
      old times are remembered. */
  lemma RescheduledEventRow(e: Evidence, app: ApplicationResolution, event: EventResolution, p: Plan, s: Store, s': Store, r: MutationResult)
    requires PlanTransition(e, app, event) == Ok(p) && p.refusal.None? && Apply(s, p) == Ok((s', r)) && event.RescheduleEvent?
    ensures r.applicationId.Some? && r.eventId == Some(event.id) && event.id in Interviews(s, r.applicationId.value)
    ensures event.id in s'.events && OthersStay(s, s', event.id)
    ensures var row, row' := s.events[event.id], s'.events[event.id];
            && Says(row', e, event.fingerprint)
            && row'.application == row.application && row'.eventType == row.eventType && row'.status == row.status
            && (row' != row ==> Remembers(s, s', e.source, event.id, event.fingerprint))
  {
    var s2, a, s3, id, moved, ids, changed := Staged(s, p, s', r);
    RewrittenRow(s2, p, a, s3, id, moved);
    ActionFrame(s3, p, a);
  }

  lemma RewrittenRow(s: Store, p: Plan, a: ApplicationId, s': Store, id: Option<EventId>, moved: bool)
    requires p.event.kind == UpdateMutation && ApplyEvent(s, p, a) == Ok((s', id, moved))
    ensures p.event.id.Some? && p.event.fingerprint.Some? && id == p.event.id && id.value in Interviews(s, a)
    ensures id.value in s'.events && OthersStay(s, s', id.value)
    ensures var row, row' := s.events[id.value], s'.events[id.value];
            && row'.round == p.event.round && row'.startsAt == p.event.startsAt && row'.deadlineAt == p.event.deadlineAt
            && row'.timezone == p.event.timezone && row'.sourceText == p.event.sourceText && row'.fingerprint == p.event.fingerprint
            && row'.application == row.application && row'.eventType == row.eventType && row'.status == row.status
            && (row' != row ==> Remembers(s, s', p.source, id.value, p.event.fingerprint.value))
  {
  }

  /** Repeated and untracked emails leave the events alone. */
  lemma EventsAlone(e: Evidence, app: ApplicationResolution, event: EventResolution, p: Plan, s: Store, s': Store, r: MutationResult)
    requires PlanTransition(e, app, event) == Ok(p) && p.refusal.None? && Apply(s, p) == Ok((s', r))
    requires event.DuplicateEvent? || event.NoEvent?
    ensures s'.events == s.events && s'.eventHistory == s.eventHistory
    ensures r.eventId == if event.DuplicateEvent? then Some(event.id) else None
  {
    var s2, a, s3, id, moved, ids, changed := Staged(s, p, s', r);
    ActionFrame(s3, p, a);
  }

  // ---------- When a commit fails, and when it changes anything ----------

  /** The open applications of the planned company and role. */
  function Planned(s: Store, p: Plan): set<ApplicationId> {
    set a | a in s.applications && p.companyId.Some? && s.applications[a].companyId == p.companyId
            && s.applications[a].status != Rejected && s.applications[a].status != Withdrawn
            && (p.roleNormalized.Some? ==> s.applications[a].roleNormalized == p.roleNormalized)
  }

  /** A linked email keeps its application, which must be the planned one or fit a planned create. An
      unlinked create takes the only open match, or its own free id when there is none or none is wanted. */
  lemma LinkWorksExactly(s: Store, p: Plan)
    requires p.source in s.sources
    ensures ResolveForWrite(s, p).Ok? <==>
              if s.sources[p.source].Some? then
                var a := s.sources[p.source].value;
                a in s.applications &&
                (a == p.applicationId || (p.create && s.applications[a].companyId == p.companyId
                                          && (p.roleNormalized.Some? ==> s.applications[a].roleNormalized == p.roleNormalized)))
              else if !p.create then p.applicationId in s.applications
              else if p.reviewedCreateNew || Planned(s, p) == {} then p.applicationId !in s.applications
              else |Planned(s, p)| == 1
    ensures ResolveForWrite(s, p).Ok? && s.sources[p.source].None? && p.create && !p.reviewedCreateNew && Planned(s, p) != {} ==>
              Planned(s, p) == {ResolveForWrite(s, p).value.1}
  {
    assert p.companyId.Some? ==> OpenApplications(s, p.companyId.value, p.roleNormalized) == Planned(s, p);
    if |Planned(s, p)| == 1 { OneMember(Planned(s, p), TheOne(Planned(s, p))); }
  }

  /** A new event needs a free id unless a row has its identity; a reschedule needs an active interview, and
      no other row with its identity. */
  lemma EventWorksExactly(s: Store, p: Plan, a: ApplicationId)
    ensures var e := p.event;
            ApplyEvent(s, p, a).Ok? <==>
              e.kind == NoMutation ||
              (e.id.Some? && e.eventType.Some? && e.fingerprint.Some? &&
               var same := set x | x in s.events && s.events[x].application == a && s.events[x].fingerprint == e.fingerprint;
               if e.kind == CreateMutation then same != {} || e.id.value !in s.events
               else e.id.value in Interviews(s, a) && (RowRepeats(s.events[e.id.value], e) || same <= {e.id.value}))
  {
    if p.event.fingerprint.Some? {
      assert EventsWith(s, a, p.event.fingerprint.value)
          == set x | x in s.events && s.events[x].application == a && s.events[x].fingerprint == p.event.fingerprint;
    }
  }

  /** The row already says all that the plan says. */
  predicate RowRepeats(row: EventRow, e: PlannedEvent) {
    row.round == e.round && row.startsAt == e.startsAt && row.deadlineAt == e.deadlineAt && row.timezone == e.timezone
    && row.sourceText == e.sourceText && row.fingerprint == e.fingerprint
  }

  lemma ActionWorksExactly(s: Store, p: Plan, a: ApplicationId)
    ensures ApplyAction(s, p, a).Ok? <==>
              p.action.None? ||
              ((p.action.value.linkRef.Some? ==> (p.source, p.action.value.linkRef.value) in s.secureLinks)
               && ((exists x :: x in s.actions && s.actions[x].application == a && s.actions[x].key == p.action.value.key)
                   || p.action.value.id !in s.actions))
  {
    if p.action.Some? {
      var same := ActionsWith(s, a, p.action.value.key);
      if x :| x in s.actions && s.actions[x].application == a && s.actions[x].key == p.action.value.key { assert x in same; }
      if same != {} { assert TheOne(same) in same; }
    }
  }

  /** The reported `changed` is true exactly when the database is not what it was. */
  lemma ChangedExactly(s: Store, p: Plan, s': Store, r: MutationResult)
    requires Apply(s, p) == Ok((s', r))
    ensures r.changed <==> s' != s
  {
    if p.refusal.None? {
      var (s1, a, linked) := ResolveForWrite(s, p).value;
      ResolveCommits(s, p, s1, a, linked);
      LinkChanges(s, p, s1, a, linked);
      StagesChange(s1, p, a, linked, s', r);
      StagesCommit(s1, p, a, linked, s', r);
    }
  }

  lemma LinkChanges(s: Store, p: Plan, s1: Store, a: ApplicationId, linked: bool)
    requires p.source in s.sources && ResolveForWrite(s, p) == Ok((s1, a, linked))
    ensures linked <==> s1.sources != s.sources
    ensures !linked ==> s1 == s
  {
    LinkedFlag(s, p);
    ResolveCommits(s, p, s1, a, linked);
    if linked { assert s1.sources[p.source] != s.sources[p.source]; }
  }

  lemma LinkedFlag(s: Store, p: Plan)
    requires p.source in s.sources && ResolveForWrite(s, p).Ok?
    ensures ResolveForWrite(s, p).value.2 == s.sources[p.source].None?
    ensures s.sources[p.source].Some? ==> ResolveForWrite(s, p).value.0 == s
  {
  }

  /** After the link, no stage touches it; without a link, every change is a change of a stage. */
  lemma StagesChange(s: Store, p: Plan, a: ApplicationId, linked: bool, s': Store, r: MutationResult)
    requires a in s.applications && ApplyStages(s, p, a, linked) == Ok((s', r))
    ensures s'.sources == s.sources
    ensures r.changed <==> linked || s' != s
  {
    var (s2, moved) := ApplyStatus(s, p, a);
    var (s3, id, eventChanged) := ApplyEvent(s2, p, a).value;
    var (s4, ids, actionChanged) := ApplyAction(s3, p, a).value;
    EventFrame(s2, p, a);
    ActionFrame(s3, p, a);
    StatusChanges(s, p, a);
    EventChanges(s2, p, a, s3, id, eventChanged);
    ActionChanges(s3, p, a, s4, ids, actionChanged);
  }

  lemma StatusChanges(s: Store, p: Plan, a: ApplicationId)
    requires a in s.applications
    ensures ApplyStatus(s, p, a).1 <==> ApplyStatus(s, p, a).0.applications != s.applications
    ensures !ApplyStatus(s, p, a).1 ==> ApplyStatus(s, p, a).0 == s
    ensures var s' := ApplyStatus(s, p, a).0; s'.events == s.events && s'.eventHistory == s.eventHistory && s'.actions == s.actions
  {
    if ApplyStatus(s, p, a).1 { assert ApplyStatus(s, p, a).0.applications[a] != s.applications[a]; }
  }

  lemma EventChanges(s: Store, p: Plan, a: ApplicationId, s': Store, id: Option<EventId>, changed: bool)
    requires ApplyEvent(s, p, a) == Ok((s', id, changed))
    ensures changed <==> s'.events != s.events
    ensures !changed ==> s' == s
  {
    if changed { assert id.Some? && id.value in s'.events && (id.value in s.events ==> s'.events[id.value] != s.events[id.value]); }
  }

  lemma ActionChanges(s: Store, p: Plan, a: ApplicationId, s': Store, ids: seq<ActionId>, changed: bool)
    requires ApplyAction(s, p, a) == Ok((s', ids, changed))
    ensures changed <==> s'.actions != s.actions
    ensures !changed ==> s' == s
  {
    if changed { assert ids[0] in s'.actions && ids[0] !in s.actions; }
  }

  // ---------- The action item an email leaves ----------

  predicate KindOfAction(e: Evidence, t: ActionType) {
    match e.eventType
    case Assessment => t == AssessmentAction
    case Interview => t == InterviewAction
    case InterviewReschedule => t == InterviewAction
    case Deadline => t == DeadlineAction
    case OfferNotice => t == OfferAction
    case ApplicationReceived => t == ApplicationPortal
    case _ => t == General
  }

  /** The identity of an action: the event it is about, its kind, its text and when it is due. */
  predicate NamesAction(key: ActionKey, e: Evidence, event: EventResolution) {
    && key.event == (if event.NoEvent? || event.ReviewEvent? then SemanticFingerprint(e) else event.fingerprint)
    && KindOfAction(e, key.actionType) && key.dueAt == e.deadline
    && key.title == (if e.actionText.Some? && e.actionText.value.raw != "" then e.actionText.value.normal else "recruitment action required")
  }

  /** An email that asks for action leaves one item of its identity, new or found; others leave none. */
  lemma CommittedAction(e: Evidence, app: ApplicationResolution, event: EventResolution, p: Plan, s: Store, s': Store, r: MutationResult)
    requires PlanTransition(e, app, event) == Ok(p) && p.refusal.None? && Apply(s, p) == Ok((s', r)) && e.actionRequired
    ensures r.applicationId.Some? && |r.actionIds| == 1 && r.actionIds[0] in s'.actions
    ensures var id := r.actionIds[0];
            var row := s'.actions[id];
            && row.application == r.applicationId.value && NamesAction(row.key, e, event)
            && (forall x :: x in s.actions ==> x in s'.actions && s'.actions[x] == s.actions[x])
            && s'.actions.Keys <= s.actions.Keys + {id}
            && (id !in s.actions ==>
                  && id == NewActionId(e.source, row.key) && row.source == e.source && row.actionType == row.key.actionType
                  && row.dueAt == e.deadline
                  && row.title == (if e.actionText.Some? && e.actionText.value.raw != "" then e.actionText.value.raw
                                   else "Recruitment action required")
                  && (e.actionLinkRef.None? ==> row.link.None?)
                  && (e.actionLinkRef.Some? ==> (e.source, e.actionLinkRef.value) in s.secureLinks
                                                && row.link == Some(s.secureLinks[(e.source, e.actionLinkRef.value)])))
  {
    var s2, a, s3, id, moved, ids, changed := Staged(s, p, s', r);
    EventFrame(s2, p, a);
    ActionRowOf(s3, p, a, s', ids, changed);
  }

  lemma ActionRowOf(s: Store, p: Plan, a: ApplicationId, s': Store, ids: seq<ActionId>, changed: bool)
    requires p.action.Some? && ApplyAction(s, p, a) == Ok((s', ids, changed))
    ensures |ids| == 1 && ids[0] in s'.actions && s'.actions[ids[0]].application == a && s'.actions[ids[0]].key == p.action.value.key
    ensures s'.actions.Keys <= s.actions.Keys + {ids[0]}
    ensures forall x :: x in s.actions ==> x in s'.actions && s'.actions[x] == s.actions[x]
    ensures ids[0] !in s.actions ==>
              var row, action := s'.actions[ids[0]], p.action.value;
              && ids[0] == action.id && row.source == p.source && row.actionType == action.actionType && row.title == action.title
              && row.dueAt == action.dueAt && (action.linkRef.None? ==> row.link.None?)
              && (action.linkRef.Some? ==> (p.source, action.linkRef.value) in s.secureLinks
                                           && row.link == Some(s.secureLinks[(p.source, action.linkRef.value)]))
  {
    var same := ActionsWith(s, a, p.action.value.key);
    if same != {} { assert TheOne(same) in same; }
  }

  lemma NoAction(e: Evidence, app: ApplicationResolution, event: EventResolution, p: Plan, s: Store, s': Store, r: MutationResult)
    requires PlanTransition(e, app, event) == Ok(p) && p.refusal.None? && Apply(s, p) == Ok((s', r)) && !e.actionRequired
    ensures s'.actions == s.actions && r.actionIds == []
  {
    var s2, a, s3, id, moved, ids, changed := Staged(s, p, s', r);
    EventFrame(s2, p, a);
  }
}
