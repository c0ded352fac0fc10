/** What one commit of a plan does: applied twice, and to links, openness and history. */
module DomainCommits {
  import opened Wrappers
  import opened ApplicationStatus
  import opened Domain

  // ---------- What one commit does ----------

  /** The application row a commit works on, before its status moves. */
  function RowBefore(s: Store, p: Plan, a: ApplicationId): Application {
    if a in s.applications then s.applications[a]
    else Application(p.companyId, p.rawCompanyName, p.roleName, p.roleNormalized, Unknown, 1)
  }

  function RowAfter(s: Store, p: Plan, a: ApplicationId): Application {
    var row := RowBefore(s, p, a);
    var target := Next(row.status, p.statusAfter);
    if target == row.status then row else row.(status := target, version := row.version + 1)
  }

  /** A successful commit touches one application, links the email to it, and records exactly
      the status change it makes. */
  ghost predicate Commits(s: Store, p: Plan, s': Store, a: ApplicationId) {
    var row := RowBefore(s, p, a);
    && p.refusal.None?
    && p.source in s.sources
    && (s.sources[p.source].Some? ==> s.sources[p.source] == Some(a) && a in s.applications)
    && s'.sources == s.sources[p.source := Some(a)]
    && s'.applications == s.applications[a := RowAfter(s, p, a)]
    && s'.statusHistory == (if RowAfter(s, p, a) == row then s.statusHistory
                            else s.statusHistory + {StatusChange(p.source, a, row.status, RowAfter(s, p, a).status)})
    && (a != p.applicationId ==> p.create)
    && (a !in s.applications ==> FreshlyCreated(s, p, a))
  }

  /** A commit opens an application only for a create that found no open one. */
  predicate FreshlyCreated(s: Store, p: Plan, a: ApplicationId) {
    && p.create && a == p.applicationId
    && (p.companyId.Some? && !p.reviewedCreateNew ==> OpenApplications(s, p.companyId.value, p.roleNormalized) == {})
  }

  lemma ResolveCommits(s: Store, p: Plan, s1: Store, a: ApplicationId, linked: bool)
    requires p.source in s.sources && ResolveForWrite(s, p) == Ok((s1, a, linked))
    ensures s1 == Link(s.(applications := s.applications[a := RowBefore(s, p, a)]), p, a)
    ensures s.sources[p.source].Some? ==> s.sources[p.source] == Some(a) && a in s.applications
    ensures a != p.applicationId ==> p.create
    ensures a !in s.applications ==> FreshlyCreated(s, p, a)
  {
    if a in s.applications { assert s.applications[a := s.applications[a]] == s.applications; }
    if s.sources[p.source].Some? { assert s.sources[p.source := Some(a)] == s.sources; }
  }

  lemma ApplyCommits(s: Store, p: Plan, s': Store, r: MutationResult)
    requires Apply(s, p) == Ok((s', r)) && p.refusal.None?
    ensures r.applicationId.Some? && Commits(s, p, s', r.applicationId.value)
  {
    var (s1, a, linked) := ResolveForWrite(s, p).value;
    ResolveCommits(s, p, s1, a, linked);
    StagesCommit(s1, p, a, linked, s', r);
    LinkedCommits(s, p, s1, a, s');
  }

  lemma LinkedCommits(s: Store, p: Plan, s1: Store, a: ApplicationId, s': Store)
    requires p.refusal.None? && p.source in s.sources
    requires s1 == Link(s.(applications := s.applications[a := RowBefore(s, p, a)]), p, a)
    requires s.sources[p.source].Some? ==> s.sources[p.source] == Some(a) && a in s.applications
    requires a != p.applicationId ==> p.create
    requires a !in s.applications ==> FreshlyCreated(s, p, a)
    requires SameIdentities(ApplyStatus(s1, p, a).0, s')
    ensures Commits(s, p, s', a)
  {
    assert s'.applications == s.applications[a := RowAfter(s, p, a)];
  }

  /** After the link only the status stage touches applications and status history. */
  lemma StagesCommit(s: Store, p: Plan, a: ApplicationId, linked: bool, s': Store, r: MutationResult)
    requires a in s.applications && ApplyStages(s, p, a, linked) == Ok((s', r))
    ensures r.applicationId == Some(a) && SameIdentities(ApplyStatus(s, p, a).0, s')
  {
    var (s2, _) := ApplyStatus(s, p, a);
    var (s3, _, _) := ApplyEvent(s2, p, a).value;
    EventFrame(s2, p, a);
    ActionFrame(s3, p, a);
  }

  predicate SameIdentities(s: Store, t: Store) {
    t.sources == s.sources && t.applications == s.applications && t.statusHistory == s.statusHistory && t.secureLinks == s.secureLinks
  }

  lemma EventFrame(s: Store, p: Plan, a: ApplicationId)
    requires ApplyEvent(s, p, a).Ok?
    ensures SameIdentities(s, ApplyEvent(s, p, a).value.0) && ApplyEvent(s, p, a).value.0.actions == s.actions
  {
    var e := p.event;
    if e.kind == UpdateMutation { RescheduleFrame(s, p.source, e, a); } else if e.kind == CreateMutation { CreateFrame(s, e, a); }
  }

  lemma CreateFrame(s: Store, e: PlannedEvent, a: ApplicationId)
    requires e.id.Some? && e.eventType.Some? && e.fingerprint.Some? && CreatePlanned(s, e, a).Ok?
    ensures var s' := CreatePlanned(s, e, a).value.0; s' == s.(events := s'.events)
  {
  }

  lemma RescheduleFrame(s: Store, source: int, e: PlannedEvent, a: ApplicationId)
    requires e.id.Some? && e.fingerprint.Some? && ReschedulePlanned(s, source, e, a).Ok?
    ensures var s' := ReschedulePlanned(s, source, e, a).value.0; s' == s.(events := s'.events, eventHistory := s'.eventHistory)
  {
  }

  lemma ActionFrame(s: Store, p: Plan, a: ApplicationId)
    requires ApplyAction(s, p, a).Ok?
    ensures SameIdentities(s, ApplyAction(s, p, a).value.0)
    ensures ApplyAction(s, p, a).value.0.events == s.events && ApplyAction(s, p, a).value.0.eventHistory == s.eventHistory
  {
  }

  // ---------- Committing twice ----------

  /** The email is linked now, and the link agrees with the plan. */
  lemma LinkTwice(s: Store, p: Plan, s1: Store, a: ApplicationId, linked: bool, t: Store)
    requires p.source in s.sources && ResolveForWrite(s, p) == Ok((s1, a, linked))
    requires t.sources == s.sources[p.source := Some(a)] && a in t.applications
    requires SameIdentity(t.applications[a], RowBefore(s, p, a))
    ensures ResolveForWrite(t, p) == Ok((t, a, false))
  {
    assert a in s.applications ==> LinkAgrees(s.applications[a], a, p);
  }

  predicate SameIdentity(x: Application, y: Application) {
    x.companyId == y.companyId && x.roleNormalized == y.roleNormalized
  }

  lemma EventTwice(s: Store, p: Plan, a: ApplicationId, s': Store, id: Option<EventId>, changed: bool, t: Store)
    requires EventsUnique(s) && ApplyEvent(s, p, a) == Ok((s', id, changed))
    requires t.events == s'.events
    ensures EventsUnique(s')
    ensures ApplyEvent(t, p, a) == Ok((t, id, false))
  {
    var e := p.event;
    if e.kind == CreateMutation {
      EventCreatedTwice(s, p, a, s', id, changed, t);
    } else if e.kind == UpdateMutation {
      EventRescheduledTwice(s, p, a, s', id, changed, t);
    }
  }

  lemma EventCreatedTwice(s: Store, p: Plan, a: ApplicationId, s': Store, id: Option<EventId>, changed: bool, t: Store)
    requires EventsUnique(s) && ApplyEvent(s, p, a) == Ok((s', id, changed))
    requires t.events == s'.events && p.event.kind == CreateMutation
    ensures EventsUnique(s')
    ensures ApplyEvent(t, p, a) == Ok((t, id, false))
  {
    var fingerprint := p.event.fingerprint.value;
    var same := EventsWith(s, a, fingerprint);
    if same == {} {
      forall x | x in s.events && s.events[x].application == a ensures s.events[x].fingerprint != Some(fingerprint) {
        assert x !in same;
      }
      assert EventsWith(t, a, fingerprint) == {id.value};
    } else {
      assert EventsWith(t, a, fingerprint) == same;
    }
  }

  lemma EventRescheduledTwice(s: Store, p: Plan, a: ApplicationId, s': Store, id: Option<EventId>, changed: bool, t: Store)
    requires EventsUnique(s) && ApplyEvent(s, p, a) == Ok((s', id, changed))
    requires t.events == s'.events && p.event.kind == UpdateMutation
    ensures EventsUnique(s')
    ensures ApplyEvent(t, p, a) == Ok((t, id, false))
  {
    var e, row := p.event, s.events[p.event.id.value];
    var same := EventsWith(s, a, e.fingerprint.value);
    if Rescheduled(row, e) != row {
      forall x | x in s.events && x != id.value && s.events[x].application == a ensures s.events[x].fingerprint != e.fingerprint {
        assert x !in same - {id.value};
      }
      assert s'.events == s.events[id.value := Rescheduled(row, e)];
    }
  }

  lemma ActionTwice(s: Store, p: Plan, a: ApplicationId, s': Store, ids: seq<ActionId>, changed: bool)
    requires ActionsUnique(s) && ApplyAction(s, p, a) == Ok((s', ids, changed))
    ensures ActionsUnique(s')
    ensures ApplyAction(s', p, a) == Ok((s', ids, false))
  {
    if p.action.Some? {
      var action := p.action.value;
      var same := ActionsWith(s, a, action.key);
      if same == {} {
        forall x | x in s.actions && s.actions[x].application == a ensures s.actions[x].key != action.key {
          assert x !in same;
        }
        assert ActionsWith(s', a, action.key) == {action.id};
      }
    }
  }

  lemma StatusTwice(s: Store, p: Plan, a: ApplicationId, t: Store)
    requires a in s.applications && t.applications == ApplyStatus(s, p, a).0.applications
    ensures ApplyStatus(t, p, a) == (t, false)
    ensures SameIdentity(t.applications[a], s.applications[a])
  {
    NextRises(s.applications[a].status, p.statusAfter);
  }

  lemma LinkAndStatusTwice(s: Store, p: Plan, s1: Store, a: ApplicationId, linked: bool, t: Store)
    requires LinksResolve(s) && p.source in s.sources
    requires ResolveForWrite(s, p) == Ok((s1, a, linked)) && a in s1.applications
    requires t.sources == s1.sources && t.applications == ApplyStatus(s1, p, a).0.applications
    ensures s1.events == s.events && s1.actions == s.actions && LinksResolve(t)
    ensures ResolveForWrite(t, p) == Ok((t, a, false)) && ApplyStatus(t, p, a) == (t, false)
  {
    ResolveCommits(s, p, s1, a, linked);
    StatusTwice(s1, p, a, t);
    LinkTwice(s, p, s1, a, linked, t);
  }

  lemma EventAndActionTwice(s2: Store, p: Plan, a: ApplicationId, s3: Store, eventId: Option<EventId>, moved: bool,
                            s4: Store, actionIds: seq<ActionId>, changed: bool)
    requires EventsUnique(s2) && ActionsUnique(s2)
    requires ApplyEvent(s2, p, a) == Ok((s3, eventId, moved)) && ApplyAction(s3, p, a) == Ok((s4, actionIds, changed))
    ensures SameIdentities(s2, s4) && EventsUnique(s4) && ActionsUnique(s4)
    ensures ApplyEvent(s4, p, a) == Ok((s4, eventId, false)) && ApplyAction(s4, p, a) == Ok((s4, actionIds, false))
  {
    EventFrame(s2, p, a);
    ActionFrame(s3, p, a);
    EventTwice(s2, p, a, s3, eventId, moved, s4);
    ActionTwice(s3, p, a, s4, actionIds, changed);
  }

  /** Stages applied to their own result change nothing. */
  lemma StagesTwice(s: Store, p: Plan, a: ApplicationId, linked: bool, s': Store, r: MutationResult)
    requires a in s.applications && EventsUnique(s) && ActionsUnique(s) && ApplyStages(s, p, a, linked) == Ok((s', r))
    ensures EventsUnique(s') && ActionsUnique(s') && SameIdentities(ApplyStatus(s, p, a).0, s')
    ensures a in s'.applications && ApplyStatus(s', p, a) == (s', false) ==>
              ApplyStages(s', p, a, false) == Ok((s', r.(changed := false)))
  {
    var s2 := ApplyStatus(s, p, a).0;
    var (s3, eventId, moved) := ApplyEvent(s2, p, a).value;
    var (s4, actionIds, changed) := ApplyAction(s3, p, a).value;
    EventAndActionTwice(s2, p, a, s3, eventId, moved, s4, actionIds, changed);
  }

  /** Committing a plan a second time changes nothing and returns the same ids, whatever the
      plan: creates that lost a race to an existing application included. */
  lemma CommitTwice(s: Store, p: Plan, s': Store, r: MutationResult)
    requires Valid(s) && Apply(s, p) == Ok((s', r))
    ensures Valid(s')
    ensures Apply(s', p) == Ok((s', r.(changed := false)))
  {
    if p.refusal.None? {
      var (s1, a, linked) := ResolveForWrite(s, p).value;
      LinkedTwice(s, p, s1, a, linked, s', r);
    }
  }

  lemma LinkedTwice(s: Store, p: Plan, s1: Store, a: ApplicationId, linked: bool, s': Store, r: MutationResult)
    requires Valid(s) && p.refusal.None? && p.source in s.sources && a in s1.applications
    requires ResolveForWrite(s, p) == Ok((s1, a, linked)) && ApplyStages(s1, p, a, linked) == Ok((s', r))
    ensures Valid(s')
    ensures Apply(s', p) == Ok((s', r.(changed := false)))
  {
    ResolveCommits(s, p, s1, a, linked);
    StagesTwice(s1, p, a, linked, s', r);
    LinkAndStatusTwice(s, p, s1, a, linked, s');
    IdleLink(s', p, a, r.(changed := false));
  }

  lemma IdleLink(s: Store, p: Plan, a: ApplicationId, r: MutationResult)
    requires p.refusal.None? && p.source in s.sources && ResolveForWrite(s, p) == Ok((s, a, false))
    requires ApplyStages(s, p, a, false) == Ok((s, r))
    ensures Apply(s, p) == Ok((s, r))
  {
  }

  // ---------- Links, openness, history ----------

  predicate SamePosition(x: Application, y: Application) {
    x.companyId.Some? && x.companyId == y.companyId && x.roleNormalized == y.roleNormalized
  }

  /** At most one open application per known company and role. */
  ghost predicate OneOpen(s: Store) {
    forall a, b :: a in s.applications && b in s.applications && a != b && SamePosition(s.applications[a], s.applications[b])
                   ==> !IsOpen(s.applications[a].status) || !IsOpen(s.applications[b].status)
  }

  lemma CommitKeepsOneOpen(s: Store, p: Plan, s': Store, a: ApplicationId)
    requires OneOpen(s) && Commits(s, p, s', a) && !p.reviewedCreateNew
    ensures OneOpen(s')
  {
    forall b | b in s.applications && b != a && SamePosition(s'.applications[a], s.applications[b]) && IsOpen(s'.applications[a].status)
      ensures !IsOpen(s.applications[b].status)
    {
      if a !in s.applications {
        assert b !in OpenApplications(s, p.companyId.value, p.roleNormalized);
      }
    }
  }

  /** Links, once set, stay; applications stay; closed applications stay closed. */
  ghost predicate Extends(s: Store, s': Store) {
    && (forall x :: x in s.sources && s.sources[x].Some? ==> x in s'.sources && s'.sources[x] == s.sources[x])
    && (forall a :: a in s.applications ==>
                      && a in s'.applications
                      && SameIdentity(s.applications[a], s'.applications[a])
                      && Precedes(s.applications[a].status, s'.applications[a].status)
                      && (!IsOpen(s.applications[a].status) ==> s'.applications[a] == s.applications[a]))
  }

  lemma CommitExtends(s: Store, p: Plan, s': Store, a: ApplicationId)
    requires Commits(s, p, s', a)
    ensures Extends(s, s')
  {
    NextRises(RowBefore(s, p, a).status, p.statusAfter);
  }

  /** `path` is the gap-free chain of an application's status changes, oldest first. */
  ghost predicate Chain(path: seq<StatusChange>, a: ApplicationId, status: Status) {
    && (forall i :: 0 <= i < |path| ==> path[i].application == a && Height(path[i].before) < Height(path[i].after))
    && (forall i :: 0 < i < |path| ==> path[i - 1].after == path[i].before)
    && (if path == [] then status == Unknown else path[0].before == Unknown && path[|path| - 1].after == status)
  }

  ghost predicate HistoryIs(s: Store, a: ApplicationId, path: seq<StatusChange>)
    requires a in s.applications
  {
    && Chain(path, a, s.applications[a].status)
    && (forall c :: c in s.statusHistory && c.application == a <==> c in path)
    && s.applications[a].version == |path| + 1
  }

  ghost predicate HistoryComplete(s: Store) {
    && (forall a :: a in s.applications ==> exists path :: HistoryIs(s, a, path))
    && (forall c :: c in s.statusHistory ==> c.application in s.applications)
  }

  lemma {:induction false} ChainRises(path: seq<StatusChange>, a: ApplicationId, status: Status, i: nat, j: nat)
    requires Chain(path, a, status) && i < j < |path|
    ensures Height(path[i].before) < Height(path[j].before)
    decreases j
  {
    if i < j - 1 { ChainRises(path, a, status, i, j - 1); }
  }

  lemma {:induction false} ChainHeight(path: seq<StatusChange>, a: ApplicationId, status: Status, i: nat)
    requires Chain(path, a, status) && i < |path|
    ensures i < Height(path[i].after) <= 7
  {
    if i > 0 { ChainHeight(path, a, status, i - 1); }
  }

  /** The rows of an application are as many as its version says, at most seven: no
      deterministic history id ever collides. */
  lemma HistoryCounts(s: Store, a: ApplicationId)
    requires HistoryComplete(s) && a in s.applications
    ensures s.applications[a].version == 1 + |set c | c in s.statusHistory && c.application == a|
    ensures s.applications[a].version <= 8
  {
    var path :| HistoryIs(s, a, path);
    PathCounts(s, a, path);
  }

  lemma PathCounts(s: Store, a: ApplicationId, path: seq<StatusChange>)
    requires a in s.applications && HistoryIs(s, a, path)
    ensures |path| == |set c | c in s.statusHistory && c.application == a| <= 7
  {
    var status := s.applications[a].status;
    forall i, j | 0 <= i < j < |path| ensures path[i] != path[j] {
      ChainRises(path, a, status, i, j);
    }
    DistinctCount(path);
    assert (set c | c in s.statusHistory && c.application == a) == set c | c in path;
    if path != [] { ChainHeight(path, a, status, |path| - 1); }
  }

  lemma {:induction false} DistinctCount<T>(path: seq<T>)
    requires forall i, j :: 0 <= i < j < |path| ==> path[i] != path[j]
    ensures |set c | c in path| == |path|
  {
    if path != [] {
      var front := path[..|path| - 1];
      DistinctCount(front);
      assert (set c | c in path) == (set c | c in front) + {path[|path| - 1]};
    }
  }

  lemma CommitKeepsHistory(s: Store, p: Plan, s': Store, a: ApplicationId)
    requires HistoryComplete(s) && Commits(s, p, s', a)
    ensures HistoryComplete(s')
  {
    forall b | b in s'.applications ensures exists path :: HistoryIs(s', b, path) {
      if b == a {
        var path := GrownPath(s, p, s', a);
      } else {
        var path :| HistoryIs(s, b, path);
        OtherPath(s, p, s', a, b, path);
      }
    }
  }

  lemma OtherPath(s: Store, p: Plan, s': Store, a: ApplicationId, b: ApplicationId, path: seq<StatusChange>)
    requires Commits(s, p, s', a) && b in s.applications && b != a && HistoryIs(s, b, path)
    ensures HistoryIs(s', b, path)
  {
  }

  lemma GrownPath(s: Store, p: Plan, s': Store, a: ApplicationId) returns (path: seq<StatusChange>)
    requires HistoryComplete(s) && Commits(s, p, s', a)
    ensures HistoryIs(s', a, path)
  {
    var row, row' := RowBefore(s, p, a), RowAfter(s, p, a);
    path := [];
    if a in s.applications { path :| HistoryIs(s, a, path); }
    NextRises(row.status, p.statusAfter);
    if row' != row {
      var change := StatusChange(p.source, a, row.status, row'.status);
      ChainGrows(path, a, change);
      path := path + [change];
    }
  }

  lemma ChainGrows(path: seq<StatusChange>, a: ApplicationId, change: StatusChange)
    requires Chain(path, a, change.before) && change.application == a && Height(change.before) < Height(change.after)
    ensures Chain(path + [change], a, change.after)
  {
  }
}
