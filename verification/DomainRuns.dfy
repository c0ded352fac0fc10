/** Properties of the transition engine over runs of stale and racing commits. */
module DomainRuns {
  import opened Wrappers
  import opened ApplicationStatus
  import opened Domain
  import opened DomainCommits

  // ---------- Stale plans linearise ----------

  /** The evidence a plan was made from; no code reads it after planning. */
  datatype Planned = Planned(plan: Plan, evidence: Evidence)

  /** `log` holds, per application, the emails committed to it, in commit order. */
  datatype System = System(store: Store, plans: seq<Planned>, log: map<ApplicationId, seq<Evidence>>)

  /** The statuses that these emails ask for. */
  function Asked(emails: seq<Evidence>): (statuses: seq<Status>)
    ensures |statuses| == |emails| && forall i :: 0 <= i < |emails| ==> statuses[i] == DesiredStatus(emails[i])
  {
    seq(|emails|, i requires 0 <= i < |emails| => DesiredStatus(emails[i]))
  }

  function FoldOf(emails: seq<Evidence>): Status {
    Fold(Unknown, Asked(emails))
  }

  /** Plans are made against the current database and committed any time later, any number of
      times, in any order. The event part of a plan is whatever event resolution answered. */
  datatype Event =
    | MakePlan(evidence: Evidence, selected: Option<ApplicationId>, forceCreate: bool, event: EventResolution)
    | Commit(index: nat)

  function LogOf(s: System, a: ApplicationId): seq<Evidence> {
    if a in s.log then s.log[a] else []
  }

  ghost function Step(s: System, e: Event): System {
    match e
    case MakePlan(evidence, selected, forceCreate, event) =>
      var resolution := ResolveApplication(s.store, evidence, selected, forceCreate);
      if resolution.Err? then s
      else
        var plan := PlanTransition(evidence, resolution.value, event);
        if plan.Err? || plan.value.refusal.Some? then s
        else s.(plans := s.plans + [Planned(plan.value, evidence)])
    case Commit(i) => if i < |s.plans| then CommitPlan(s, s.plans[i]) else s
  }

  ghost function CommitPlan(s: System, q: Planned): System {
    var done := Apply(s.store, q.plan);
    if done.Err? || done.value.1.applicationId.None? then s
    else Committed(s, q, done.value.0, done.value.1.applicationId.value)
  }

  function Committed(s: System, q: Planned, store: Store, a: ApplicationId): System {
    System(store, s.plans, s.log[a := LogOf(s, a) + [q.evidence]])
  }

  /** A commit either fails, changing nothing, or is one of the commits described by `Commits`. */
  lemma CommitCases(s: System, q: Planned) returns (done: bool, store: Store, a: ApplicationId)
    requires q.plan.refusal.None?
    ensures done ==> Commits(s.store, q.plan, store, a) && CommitPlan(s, q) == Committed(s, q, store, a)
    ensures done && Valid(s.store) ==> Valid(store)
    ensures !done ==> CommitPlan(s, q) == s
  {
    done, store, a := Apply(s.store, q.plan).Ok?, s.store, EarlierApplication(0);
    if done {
      var r := Apply(s.store, q.plan).value.1;
      store := Apply(s.store, q.plan).value.0;
      ApplyCommits(s.store, q.plan, store, r);
      a := r.applicationId.value;
      if Valid(s.store) { CommitTwice(s.store, q.plan, store, r); }
    }
  }

  ghost function Run(s: System, events: seq<Event>): System
    decreases |events|
  {
    if events == [] then s else Run(Step(s, events[0]), events[1..])
  }

  /** A plan not committed yet, however old, still agrees with the database. */
  ghost predicate PlanAgrees(store: Store, q: Planned) {
    && q.plan.refusal.None?
    && q.plan.statusAfter == Next(q.plan.statusBefore, DesiredStatus(q.evidence))
    && (if q.plan.create then q.plan.statusBefore == Unknown
        else q.plan.applicationId in store.applications
             && Precedes(q.plan.statusBefore, store.applications[q.plan.applicationId].status))
  }

  ghost predicate PlansAgree(store: Store, plans: seq<Planned>) {
    forall i :: 0 <= i < |plans| ==> PlanAgrees(store, plans[i])
  }

  ghost predicate StatusesFold(s: System) {
    && (forall a :: a in s.store.applications ==> s.store.applications[a].status == FoldOf(LogOf(s, a)))
    && (forall a :: a in s.log ==> a in s.store.applications)
  }

  ghost predicate Linear(s: System) {
    PlansAgree(s.store, s.plans) && StatusesFold(s)
  }

  lemma {:induction false} PrecedesTransitive(x: Status, y: Status, z: Status)
    requires Precedes(x, y) && Precedes(y, z)
    ensures Precedes(x, z)
  {
  }

  lemma OtherPlanAgrees(s: Store, p: Plan, s': Store, a: ApplicationId, q: Planned)
    requires Commits(s, p, s', a) && PlanAgrees(s, q)
    ensures PlanAgrees(s', q)
  {
    CommitExtends(s, p, s', a);
    if !q.plan.create {
      var b := q.plan.applicationId;
      PrecedesTransitive(q.plan.statusBefore, s.applications[b].status, s'.applications[b].status);
    }
  }

  /** However old the plan, its commit moves the status as its desired status would. */
  lemma CommitFolds(s: Store, q: Planned, s': Store, a: ApplicationId, log: seq<Evidence>)
    requires Commits(s, q.plan, s', a) && PlanAgrees(s, q)
    requires RowBefore(s, q.plan, a).status == FoldOf(log)
    ensures s'.applications[a].status == FoldOf(log + [q.evidence])
  {
    StaleTarget(q.plan.statusBefore, RowBefore(s, q.plan, a).status, DesiredStatus(q.evidence));
    assert Asked(log + [q.evidence])[..|log|] == Asked(log);
  }

  lemma LoggedFolds(s: System, s': System, a: ApplicationId, row: Application, log: seq<Evidence>)
    requires StatusesFold(s) && row.status == FoldOf(log)
    requires s'.store.applications == s.store.applications[a := row] && s'.log == s.log[a := log]
    ensures StatusesFold(s')
  {
    forall b | b in s'.store.applications ensures s'.store.applications[b].status == FoldOf(LogOf(s', b)) {
      if b != a { assert LogOf(s', b) == LogOf(s, b); }
    }
  }

  lemma CommitStatusesFold(s: System, q: Planned, store: Store, a: ApplicationId)
    requires StatusesFold(s) && PlanAgrees(s.store, q) && Commits(s.store, q.plan, store, a)
    ensures StatusesFold(Committed(s, q, store, a))
  {
    var log := LogOf(s, a);
    assert RowBefore(s.store, q.plan, a).status == FoldOf(log) by {
      if a !in s.store.applications { assert log == [] && Asked(log) == []; }
    }
    CommitFolds(s.store, q, store, a, log);
    LoggedFolds(s, Committed(s, q, store, a), a, RowAfter(s.store, q.plan, a), log + [q.evidence]);
  }

  lemma CommitLinear(s: System, q: Planned, store: Store, a: ApplicationId)
    requires Linear(s) && PlanAgrees(s.store, q) && Commits(s.store, q.plan, store, a)
    ensures Linear(Committed(s, q, store, a))
  {
    CommitStatusesFold(s, q, store, a);
    forall i | 0 <= i < |s.plans| ensures PlanAgrees(store, s.plans[i]) {
      OtherPlanAgrees(s.store, q.plan, store, a, s.plans[i]);
    }
  }

  /** Evidence never asks for a COMPLETED or WITHDRAWN status. */
  predicate AskedFor(s: Status) {
    s != AssessmentCompleted && s != InterviewCompleted && s != Withdrawn
  }

  predicate AllAskedFor(applications: map<ApplicationId, Application>) {
    forall a :: a in applications ==> AskedFor(applications[a].status)
  }

  lemma ResolvedStatus(s: Store, e: Evidence, selected: Option<ApplicationId>, forceCreate: bool)
    requires ResolveApplication(s, e, selected, forceCreate).Ok? && !ResolveApplication(s, e, selected, forceCreate).value.Review?
    ensures var r := ResolveApplication(s, e, selected, forceCreate).value;
            if r.Create? then r.status == Unknown else r.id in s.applications && r.status == s.applications[r.id].status
  {
  }

  lemma ReviewedNew(s: Store, e: Evidence, selected: Option<ApplicationId>, forceCreate: bool)
    requires ResolveApplication(s, e, selected, forceCreate).Ok? && !ResolveApplication(s, e, selected, forceCreate).value.Review?
    ensures var r := ResolveApplication(s, e, selected, forceCreate).value;
            r.reason == "reviewed_create_new" <==> r.Create? && forceCreate && e.companyId.Some?
  {
  }

  lemma PlanOfResolution(s: Store, r: ApplicationResolution, event: EventResolution, q: Planned)
    requires PlanTransition(q.evidence, r, event) == Ok(q.plan) && q.plan.refusal.None?
    requires !r.Review? && if r.Create? then r.status == Unknown else r.id in s.applications && r.status == s.applications[r.id].status
    ensures PlanAgrees(s, q) && q.plan.create == r.Create? && q.plan.reviewedCreateNew == (r.reason == "reviewed_create_new")
    ensures AllAskedFor(s.applications) ==> AskedFor(DesiredStatus(q.evidence)) && AskedFor(q.plan.statusAfter)
  {
  }

  /** Planning records at most one plan, which agrees with the database it was made against. */
  lemma PlanCases(s: System, e: Event) returns (made: bool, q: Planned)
    requires e.MakePlan?
    ensures !made ==> Step(s, e) == s
    ensures made ==> Step(s, e) == s.(plans := s.plans + [q]) && PlanAgrees(s.store, q)
                     && q.plan.reviewedCreateNew == (q.plan.create && e.forceCreate && e.evidence.companyId.Some?)
    ensures made && AllAskedFor(s.store.applications) ==> AskedFor(DesiredStatus(q.evidence)) && AskedFor(q.plan.statusAfter)
  {
    made, q := false, Planned(Plan(0, EarlierApplication(0), false, false, None, None, None, None, Unknown, Unknown,
                                   PlannedEvent(NoMutation, None, None, None, None, None, None, None, None), None, None), e.evidence);
    var resolution := ResolveApplication(s.store, e.evidence, e.selected, e.forceCreate);
    if resolution.Ok? {
      var plan := PlanTransition(e.evidence, resolution.value, e.event);
      if plan.Ok? && plan.value.refusal.None? {
        made, q := true, Planned(plan.value, e.evidence);
        ResolvedStatus(s.store, e.evidence, e.selected, e.forceCreate);
        ReviewedNew(s.store, e.evidence, e.selected, e.forceCreate);
        PlanOfResolution(s.store, resolution.value, e.event, q);
      }
    }
  }

  lemma PlanLinear(s: System, q: Planned)
    requires Linear(s) && PlanAgrees(s.store, q)
    ensures Linear(s.(plans := s.plans + [q]))
  {
  }

  lemma PlanStepLinear(s: System, e: Event)
    requires Linear(s) && e.MakePlan?
    ensures Linear(Step(s, e)) && Step(s, e).store == s.store
  {
    var made, q := PlanCases(s, e);
    if made { PlanLinear(s, q); }
  }

  lemma CommitStepLinear(s: System, q: Planned)
    requires Linear(s) && PlanAgrees(s.store, q)
    ensures Linear(CommitPlan(s, q)) && Extends(s.store, CommitPlan(s, q).store)
  {
    var done, store, a := CommitCases(s, q);
    if done {
      CommitExtends(s.store, q.plan, store, a);
      CommitLinear(s, q, store, a);
    } else {
      ExtendsItself(s.store);
    }
  }

  lemma ExtendsItself(s: Store)
    ensures Extends(s, s)
  {
  }

  lemma StepLinear(s: System, e: Event)
    requires Linear(s)
    ensures Linear(Step(s, e))
    ensures Extends(s.store, Step(s, e).store)
  {
    ExtendsItself(s.store);
    if e.MakePlan? {
      PlanStepLinear(s, e);
    } else if e.index < |s.plans| {
      CommitStepLinear(s, s.plans[e.index]);
    }
  }

  /** Over any interleaving of planning and committing, every application's status is the fold
      of the desired statuses committed to it, in commit order. */
  lemma {:induction false} StalePlansLinearise(s: System, events: seq<Event>)
    requires Linear(s)
    ensures Linear(Run(s, events))
    decreases |events|
  {
    if events != [] {
      StepLinear(s, events[0]);
      StalePlansLinearise(Step(s, events[0]), events[1..]);
    }
  }

  // ---------- What a run of emails means ----------

  predicate Decides(e: Evidence) {
    e.eventType == OfferNotice || e.eventType == Rejection
  }

  predicate DatedInterview(e: Evidence) {
    e.eventType == InterviewReschedule || (e.eventType == Interview && e.eventAt.Some?)
  }

  predicate AnyDated(emails: seq<Evidence>) {
    exists i :: 0 <= i < |emails| && DatedInterview(emails[i])
  }

  predicate AnyOf(emails: seq<Evidence>, t: EventType) {
    exists i :: 0 <= i < |emails| && emails[i].eventType == t
  }

  /** The stage that emails without a decision lead to: the furthest one any of them speaks of. */
  function FurthestStage(emails: seq<Evidence>): Status {
    if AnyDated(emails) then InterviewScheduled
    else if AnyOf(emails, Interview) then InterviewPending
    else if AnyOf(emails, Assessment) then AssessmentPending
    else if AnyOf(emails, ApplicationReceived) then Applied
    else Unknown
  }

  lemma AnyMore(emails: seq<Evidence>, e: Evidence, t: EventType)
    ensures AnyOf(emails + [e], t) <==> AnyOf(emails, t) || e.eventType == t
    ensures AnyDated(emails + [e]) <==> AnyDated(emails) || DatedInterview(e)
  {
    var more := emails + [e];
    assert more[|emails|] == e;
    if AnyOf(emails, t) {
      var i :| 0 <= i < |emails| && emails[i].eventType == t;
      assert more[i] == emails[i];
    }
    if AnyDated(emails) {
      var i :| 0 <= i < |emails| && DatedInterview(emails[i]);
      assert more[i] == emails[i];
    }
  }

  lemma FoldMore(emails: seq<Evidence>, e: Evidence)
    ensures FoldOf(emails + [e]) == Next(FoldOf(emails), DesiredStatus(e))
  {
    assert Asked(emails + [e])[..|emails|] == Asked(emails);
  }

  /** Without a decision the status is the furthest stage, whatever the order of the emails. */
  lemma {:induction false} FurthestStageStands(emails: seq<Evidence>)
    requires forall i :: 0 <= i < |emails| ==> !Decides(emails[i])
    ensures FoldOf(emails) == FurthestStage(emails)
  {
    if emails != [] {
      var front, e := emails[..|emails| - 1], emails[|emails| - 1];
      assert emails == front + [e];
      FurthestStageStands(front);
      FoldMore(front, e);
      AnyMore(front, e, Interview);
      AnyMore(front, e, Assessment);
      AnyMore(front, e, ApplicationReceived);
      StageMoves(FurthestStage(front), FurthestStage(emails), front, e);
    }
  }

  lemma StageMoves(before: Status, after: Status, front: seq<Evidence>, e: Evidence)
    requires !Decides(e) && before == FurthestStage(front) && after == FurthestStage(front + [e])
    ensures Next(before, DesiredStatus(e)) == after
  {
    AnyMore(front, e, Interview);
    AnyMore(front, e, Assessment);
    AnyMore(front, e, ApplicationReceived);
  }

  /** With decisions the first one stands: an offer email means OFFER and a rejection email REJECTED. */
  lemma FirstDecisionEmail(emails: seq<Evidence>, i: nat)
    requires i < |emails| && Decides(emails[i]) && forall k :: 0 <= k < i ==> !Decides(emails[k])
    ensures FoldOf(emails) == if emails[i].eventType == OfferNotice then Offer else Rejected
  {
    forall k | 0 <= k < i ensures !Decision(Asked(emails)[k]) {
      assert !Decides(emails[k]);
    }
    FirstDecisionStands(Asked(emails), i);
  }

  /** Over any interleaving of planning and committing, what an application's status says about the
      emails committed to it. */
  lemma StatusTellsEmails(s: System, events: seq<Event>, a: ApplicationId)
    requires Linear(s) && a in Run(s, events).store.applications
    ensures var t := Run(s, events);
            var status, emails := t.store.applications[a].status, LogOf(t, a);
            && ((forall i :: 0 <= i < |emails| ==> !Decides(emails[i])) ==> status == FurthestStage(emails))
            && (forall i :: 0 <= i < |emails| && Decides(emails[i]) && (forall k :: 0 <= k < i ==> !Decides(emails[k])) ==>
                              status == if emails[i].eventType == OfferNotice then Offer else Rejected)
  {
    StalePlansLinearise(s, events);
    var emails := LogOf(Run(s, events), a);
    if forall i :: 0 <= i < |emails| ==> !Decides(emails[i]) { FurthestStageStands(emails); }
    forall i | 0 <= i < |emails| && Decides(emails[i]) && (forall k :: 0 <= k < i ==> !Decides(emails[k]))
      ensures FoldOf(emails) == if emails[i].eventType == OfferNotice then Offer else Rejected
    {
      FirstDecisionEmail(emails, i);
    }
  }

  // ---------- Whole runs ----------

  ghost predicate RunsSafe(s: System) {
    && Linear(s)
    && HistoryComplete(s.store)
    && Valid(s.store)
    && AllPlansAskFor(s.plans)
    && AllAskedFor(s.store.applications)
    && (forall c :: c in s.store.statusHistory ==> AskedFor(c.after))
  }

  predicate AllPlansAskFor(plans: seq<Planned>) {
    forall i :: 0 <= i < |plans| ==> AskedFor(DesiredStatus(plans[i].evidence)) && AskedFor(plans[i].plan.statusAfter)
  }

  lemma OnePlanMore(plans: seq<Planned>, q: Planned)
    requires AllPlansAskFor(plans) && AskedFor(DesiredStatus(q.evidence)) && AskedFor(q.plan.statusAfter)
    ensures AllPlansAskFor(plans + [q])
  {
  }

  lemma CommitAskedFor(s: Store, p: Plan, s': Store, a: ApplicationId)
    requires Commits(s, p, s', a) && AskedFor(p.statusAfter)
    requires AllAskedFor(s.applications)
    requires forall c :: c in s.statusHistory ==> AskedFor(c.after)
    ensures AllAskedFor(s'.applications)
    ensures forall c :: c in s'.statusHistory ==> AskedFor(c.after)
  {
    assert AskedFor(RowBefore(s, p, a).status);
  }

  lemma CommitSafe(s: System, q: Planned, store: Store, a: ApplicationId)
    requires RunsSafe(s) && PlanAgrees(s.store, q) && AskedFor(q.plan.statusAfter)
    requires Commits(s.store, q.plan, store, a) && Valid(store)
    ensures RunsSafe(Committed(s, q, store, a))
  {
    CommitLinear(s, q, store, a);
    CommitKeepsHistory(s.store, q.plan, store, a);
    CommitAskedFor(s.store, q.plan, store, a);
  }

  lemma PlanSafe(s: System, q: Planned)
    requires RunsSafe(s) && PlanAgrees(s.store, q) && AskedFor(DesiredStatus(q.evidence)) && AskedFor(q.plan.statusAfter)
    ensures RunsSafe(s.(plans := s.plans + [q]))
  {
    PlanLinear(s, q);
    OnePlanMore(s.plans, q);
  }

  lemma StepSafe(s: System, e: Event)
    requires RunsSafe(s)
    ensures RunsSafe(Step(s, e))
  {
    if e.MakePlan? {
      var made, q := PlanCases(s, e);
      if made { PlanSafe(s, q); }
    } else if e.index < |s.plans| {
      var done, store, a := CommitCases(s, s.plans[e.index]);
      if done { CommitSafe(s, s.plans[e.index], store, a); }
    }
  }

  lemma {:induction false} RunSafe(s: System, events: seq<Event>)
    requires RunsSafe(s)
    ensures RunsSafe(Run(s, events))
    decreases |events|
  {
    if events != [] {
      StepSafe(s, events[0]);
      RunSafe(Step(s, events[0]), events[1..]);
    }
  }

  /** The place of a planned status in the order of decisions. */
  function PlannedHeight(s: Status): nat {
    match s
    case Unknown => 0
    case Applied => 1
    case AssessmentPending => 2
    case InterviewPending => 3
    case InterviewScheduled => 4
    case _ => 5
  }

  lemma {:induction false} PlannedChain(path: seq<StatusChange>, a: ApplicationId, status: Status, i: nat)
    requires Chain(path, a, status) && i < |path|
    requires forall k :: 0 <= k < |path| ==> AskedFor(path[k].after)
    ensures i < PlannedHeight(path[i].after)
  {
    if i > 0 { PlannedChain(path, a, status, i - 1); }
  }

  lemma PlannedPath(s: Store, a: ApplicationId, path: seq<StatusChange>)
    requires a in s.applications && HistoryIs(s, a, path)
    requires forall c :: c in s.statusHistory ==> AskedFor(c.after)
    ensures s.applications[a].version <= 6
  {
    if path != [] {
      forall k | 0 <= k < |path| ensures AskedFor(path[k].after) {
        assert path[k] in path;
      }
      PlannedChain(path, a, s.applications[a].status, |path| - 1);
    }
  }

  /** With plans made from evidence the history has at most five rows: the two COMPLETED
      statuses are never reached. */
  lemma PlannedHistoryShort(s: System, a: ApplicationId)
    requires RunsSafe(s) && a in s.store.applications
    ensures s.store.applications[a].version <= 6
  {
    var path :| HistoryIs(s.store, a, path);
    PlannedPath(s.store, a, path);
  }

  ghost predicate NoReviewedCreate(s: System) {
    forall i :: 0 <= i < |s.plans| ==> !s.plans[i].plan.reviewedCreateNew
  }

  predicate NeverReviewedCreate(e: Event) {
    e.MakePlan? ==> !(e.forceCreate && e.evidence.companyId.Some?)
  }

  lemma StepOneOpen(s: System, e: Event)
    requires Linear(s) && OneOpen(s.store) && NoReviewedCreate(s) && NeverReviewedCreate(e)
    ensures OneOpen(Step(s, e).store) && NoReviewedCreate(Step(s, e))
  {
    if e.MakePlan? {
      var made, q := PlanCases(s, e);
    } else if e.index < |s.plans| {
      var q := s.plans[e.index];
      var done, store, a := CommitCases(s, q);
      if done { CommitKeepsOneOpen(s.store, q.plan, store, a); }
    }
  }

  /** Without a reviewed create-new, racing emails never open a second application for one
      company and role; links and closed applications are stable whatever is planned. */
  lemma {:induction false} OneOpenForEver(s: System, events: seq<Event>)
    requires Linear(s) && OneOpen(s.store) && NoReviewedCreate(s)
    requires forall i :: 0 <= i < |events| ==> NeverReviewedCreate(events[i])
    ensures OneOpen(Run(s, events).store)
    decreases |events|
  {
    if events != [] {
      assert NeverReviewedCreate(events[0]);
      StepLinear(s, events[0]);
      StepOneOpen(s, events[0]);
      OneOpenForEver(Step(s, events[0]), events[1..]);
    }
  }

  lemma ExtendsTransitive(s: Store, t: Store, u: Store)
    requires Extends(s, t) && Extends(t, u)
    ensures Extends(s, u)
  {
    forall a | a in s.applications ensures Precedes(s.applications[a].status, u.applications[a].status) {
      PrecedesTransitive(s.applications[a].status, t.applications[a].status, u.applications[a].status);
    }
  }

  lemma {:induction false} RunExtends(s: System, events: seq<Event>)
    requires Linear(s)
    ensures Extends(s.store, Run(s, events).store)
    decreases |events|
  {
    if events != [] {
      StepLinear(s, events[0]);
      RunExtends(Step(s, events[0]), events[1..]);
      ExtendsTransitive(s.store, Step(s, events[0]).store, Run(s, events).store);
    }
  }

  /** An empty database with any emails and any encrypted links. */
  lemma EmptySafe(sources: set<int>, links: map<(int, string), int>)
    ensures var store := Store(map x | x in sources :: None, map[], {}, map[], map[], map[], links);
            RunsSafe(System(store, [], map[])) && OneOpen(store) && NoReviewedCreate(System(store, [], map[]))
  {
  }

  // ---------- Semantic duplicates ----------

  lemma CreatedEventStands(s: Store, p: Plan, a: ApplicationId, s': Store, id: Option<EventId>, changed: bool)
    requires ApplyEvent(s, p, a) == Ok((s', id, changed)) && p.event.kind == CreateMutation
    ensures id.Some? && id.value in EventsWith(s', a, p.event.fingerprint.value)
  {
  }

  /** This step commits a plan that reschedules event `id`. */
  ghost predicate Touches(s: System, e: Event, id: EventId) {
    && e.Commit? && e.index < |s.plans| && Apply(s.store, s.plans[e.index].plan).Ok?
    && s.plans[e.index].plan.event.kind == UpdateMutation && s.plans[e.index].plan.event.id == Some(id)
  }

  ghost predicate NeverTouched(s: System, events: seq<Event>, id: EventId)
    decreases |events|
  {
    events == [] || (!Touches(s, events[0], id) && NeverTouched(Step(s, events[0]), events[1..], id))
  }

  lemma EventStaysPut(s: Store, p: Plan, a: ApplicationId, id: EventId)
    requires id in s.events && ApplyEvent(s, p, a).Ok? && !(p.event.kind == UpdateMutation && p.event.id == Some(id))
    ensures var s' := ApplyEvent(s, p, a).value.0; id in s'.events && s'.events[id] == s.events[id]
  {
  }

  lemma CommitKeepsEvent(s: Store, p: Plan, id: EventId)
    requires p.refusal.None? && id in s.events && Apply(s, p).Ok? && !(p.event.kind == UpdateMutation && p.event.id == Some(id))
    ensures var s' := Apply(s, p).value.0; id in s'.events && s'.events[id] == s.events[id]
  {
    var (s1, a, linked) := ResolveForWrite(s, p).value;
    ResolveCommits(s, p, s1, a, linked);
    var s2 := ApplyStatus(s1, p, a).0;
    EventStaysPut(s2, p, a, id);
    ActionFrame(ApplyEvent(s2, p, a).value.0, p, a);
  }

  lemma {:induction false} UntouchedStands(s: System, events: seq<Event>, id: EventId)
    requires Linear(s) && id in s.store.events && NeverTouched(s, events, id)
    ensures var t := Run(s, events).store; id in t.events && t.events[id] == s.store.events[id]
    decreases |events|
  {
    if events != [] {
      var e := events[0];
      StepLinear(s, e);
      if e.Commit? && e.index < |s.plans| && Apply(s.store, s.plans[e.index].plan).Ok? {
        assert PlanAgrees(s.store, s.plans[e.index]);
        CommitKeepsEvent(s.store, s.plans[e.index].plan, id);
      }
      UntouchedStands(Step(s, e), events[1..], id);
    }
  }

  /** Once a dated event is committed, whatever else is planned and committed without rescheduling
      it: later evidence with the same semantic identity resolves to it, and writes no event. */
  lemma SecondEmailDuplicates(s: System, i: nat, e: Evidence, s': Store, r: MutationResult, rest: seq<Event>)
    requires RunsSafe(s) && i < |s.plans| && Apply(s.store, s.plans[i].plan) == Ok((s', r))
    requires s.plans[i].plan.event.kind == CreateMutation && s.plans[i].plan.event.fingerprint == Some(SemanticFingerprint(e))
    requires e.eventAt.Some? || e.deadline.Some?
    requires TrackedEventType(e.eventType).Some? && e.eventType != InterviewReschedule
    requires r.eventId.Some? ==> NeverTouched(Step(s, Commit(i)), rest, r.eventId.value)
    ensures r.applicationId.Some? && r.eventId.Some?
    ensures ResolveEvent(Run(Step(s, Commit(i)), rest).store, e, r.applicationId.value, None, false)
         == Ok(DuplicateEvent(r.eventId.value, SemanticFingerprint(e), "semantic_duplicate"))
    ensures PlanEvent(e, DuplicateEvent(r.eventId.value, SemanticFingerprint(e), "semantic_duplicate"), true).kind == NoMutation
  {
    var a := CommitCreates(s, i, s', r);
    StepSafe(s, Commit(i));
    StandsDuplicated(Step(s, Commit(i)), e, a, r.eventId.value, rest);
  }

  lemma CommitCreates(s: System, i: nat, s': Store, r: MutationResult) returns (a: ApplicationId)
    requires RunsSafe(s) && i < |s.plans| && Apply(s.store, s.plans[i].plan) == Ok((s', r))
    requires s.plans[i].plan.event.kind == CreateMutation && s.plans[i].plan.event.fingerprint.Some?
    ensures r.applicationId == Some(a) && r.eventId.Some? && Step(s, Commit(i)).store == s'
    ensures r.eventId.value in EventsWith(s', a, s.plans[i].plan.event.fingerprint.value)
  {
    assert PlanAgrees(s.store, s.plans[i]);
    a := CommittedEvent(s.store, s.plans[i].plan, s', r);
    CommitsTo(s, s.plans[i], s', r);
  }

  lemma CommitsTo(s: System, q: Planned, s': Store, r: MutationResult)
    requires Apply(s.store, q.plan) == Ok((s', r)) && r.applicationId.Some?
    ensures CommitPlan(s, q).store == s'
  {
  }

  lemma StandsDuplicated(s: System, e: Evidence, a: ApplicationId, id: EventId, rest: seq<Event>)
    requires RunsSafe(s) && id in EventsWith(s.store, a, SemanticFingerprint(e)) && NeverTouched(s, rest, id)
    requires e.eventAt.Some? || e.deadline.Some?
    requires TrackedEventType(e.eventType).Some? && e.eventType != InterviewReschedule
    ensures ResolveEvent(Run(s, rest).store, e, a, None, false) == Ok(DuplicateEvent(id, SemanticFingerprint(e), "semantic_duplicate"))
  {
    UntouchedStands(s, rest, id);
    RunSafe(s, rest);
    Duplicates(Run(s, rest).store, e, a, id);
  }

  lemma Duplicates(s: Store, e: Evidence, a: ApplicationId, id: EventId)
    requires EventsUnique(s) && id in EventsWith(s, a, SemanticFingerprint(e))
    requires e.eventAt.Some? || e.deadline.Some?
    requires TrackedEventType(e.eventType).Some? && e.eventType != InterviewReschedule
    ensures ResolveEvent(s, e, a, None, false) == Ok(DuplicateEvent(id, SemanticFingerprint(e), "semantic_duplicate"))
  {
    var same := EventsWith(s, a, SemanticFingerprint(e));
    assert TheOne(same) in same;
    assert TheOne(same) == id;
  }

  lemma CommittedEvent(s: Store, p: Plan, s': Store, r: MutationResult) returns (a: ApplicationId)
    requires Apply(s, p) == Ok((s', r)) && p.refusal.None? && p.event.kind == CreateMutation
    ensures p.event.fingerprint.Some? && r.applicationId == Some(a) && r.eventId.Some?
    ensures r.eventId.value in EventsWith(s', a, p.event.fingerprint.value)
  {
    var (s1, found, linked) := ResolveForWrite(s, p).value;
    ResolveCommits(s, p, s1, found, linked);
    StagesCreate(s1, p, found, linked, s', r);
    a := found;
  }

  lemma StagesCreate(s: Store, p: Plan, a: ApplicationId, linked: bool, s': Store, r: MutationResult)
    requires a in s.applications && p.event.kind == CreateMutation && ApplyStages(s, p, a, linked) == Ok((s', r))
    ensures p.event.fingerprint.Some? && r.applicationId == Some(a) && r.eventId.Some?
    ensures r.eventId.value in EventsWith(s', a, p.event.fingerprint.value)
  {
    var s2 := ApplyStatus(s, p, a).0;
    var (s3, id, moved) := ApplyEvent(s2, p, a).value;
    CreatedEventStands(s2, p, a, s3, id, moved);
    ActionFrame(s3, p, a);
  }
}
