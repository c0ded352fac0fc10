/** The batched fan-out over waiting mail, and the chain of continuations that drains it. */
module PendingDrain {
  import opened Wrappers
  import opened Statuses

  /** A processing run; `awaiting` is the needs-review status. */
  datatype RunRow = RunRow(email: nat, awaiting: bool, openReview: bool, startedAt: int)

  /** SHA-256 is injective and a row id is used once, so an idempotency key names its row: the key
      of a child or a continuation contains the key of its parent. */
  datatype Key = Submitted(name: nat) | Child(parent: Key, email: nat) | Continuation(parent: Key)

  /** `email` is set exactly for process-email operations. */
  datatype Row = Row(status: OperationStatus, email: Option<nat>, batchLimit: Option<nat>, parent: Option<Key>)

  datatype Store = Store(emails: map<nat, EmailStatus>, runs: seq<RunRow>, operations: map<Key, Row>)

  // ---------- Queries ----------

  predicate Busy(s: Store, e: nat) {
    exists k :: k in s.operations && s.operations[k].email == Some(e) && (s.operations[k].status == Queued || s.operations[k].status == Running)
  }

  predicate Waiting(s: Store, e: nat) {
    e in s.emails && s.emails[e] == Pending && !Busy(s, e)
  }

  predicate Orphaned(r: RunRow, e: nat) {
    r.email == e && r.awaiting && !r.openReview
  }

  function CountRuns(runs: seq<RunRow>, e: nat): nat {
    if runs == [] then 0
    else CountRuns(runs[..|runs| - 1], e) + if Orphaned(runs[|runs| - 1], e) then 1 else 0
  }

  predicate Orphan(s: Store, e: nat) {
    e in s.emails && s.emails[e] == NeedsReview && CountRuns(s.runs, e) > 0
  }

  function WaitingSet(s: Store, inbox: seq<nat>): set<nat> {
    set e | e in inbox && Waiting(s, e)
  }

  function OrphanSet(s: Store, inbox: seq<nat>): set<nat> {
    set e | e in inbox && Orphan(s, e)
  }

  /** The mail a drain is for. */
  function Drainable(s: Store, inbox: seq<nat>): set<nat> {
    WaitingSet(s, inbox) + OrphanSet(s, inbox)
  }

  function Select(ids: seq<nat>, keep: set<nat>): seq<nat> {
    if ids == [] then [] else Select(ids[..|ids| - 1], keep) + if ids[|ids| - 1] in keep then [ids[|ids| - 1]] else []
  }

  function Limit(rows: seq<nat>, limit: nat): seq<nat> {
    if |rows| <= limit then rows else rows[..limit]
  }

  function Copies(e: nat, n: nat): seq<nat> {
    if n == 0 then [] else Copies(e, n - 1) + [e]
  }

  /** The join of orphaned emails with their runs: one row for each run. */
  function OrphanRows(s: Store, ids: seq<nat>): seq<nat> {
    if ids == [] then []
    else
      var e := ids[|ids| - 1];
      OrphanRows(s, ids[..|ids| - 1]) + if Orphan(s, e) then Copies(e, CountRuns(s.runs, e)) else []
  }

  /** First occurrences, in order. */
  function Dedupe(rows: seq<nat>): seq<nat> {
    if rows == [] then []
    else
      var front, last := rows[..|rows| - 1], rows[|rows| - 1];
      if last in front then Dedupe(front) else Dedupe(front) + [last]
  }

  /** The limit cuts rows, not emails: an email with two runs takes two places. */
  function ListedOrphans(s: Store, inbox: seq<nat>, limit: nat): seq<nat> {
    Dedupe(Limit(OrphanRows(s, inbox), limit))
  }

  function ListedWaiting(s: Store, inbox: seq<nat>, limit: nat): seq<nat> {
    Limit(Select(inbox, WaitingSet(s, inbox)), limit)
  }

  // ---------- Updates ----------

  /** The orphaned run started last; among equals the later row. */
  function LatestRun(runs: seq<RunRow>, e: nat): (r: Option<nat>)
    ensures r.Some? ==> r.value < |runs| && Orphaned(runs[r.value], e)
    ensures r.Some? <==> CountRuns(runs, e) > 0
    ensures r.None? ==> forall i :: 0 <= i < |runs| ==> !Orphaned(runs[i], e)
    ensures r.Some? ==> forall i :: 0 <= i < |runs| && Orphaned(runs[i], e) ==>
              runs[i].startedAt < runs[r.value].startedAt || (runs[i].startedAt == runs[r.value].startedAt && i <= r.value)
  {
    if runs == [] then None
    else
      var front, last := LatestRun(runs[..|runs| - 1], e), runs[|runs| - 1];
      assert runs == runs[..|runs| - 1] + [last];
      if Orphaned(last, e) && (front.None? || runs[front.value].startedAt <= last.startedAt) then Some(|runs| - 1) else front
  }

  function Reclaimed(s: Store, e: nat): Store {
    if !Orphan(s, e) then s
    else
      var run := LatestRun(s.runs, e).value;
      s.(runs := s.runs[run := s.runs[run].(awaiting := false)], emails := s.emails[e := Pending])
  }

  function ReclaimAll(s: Store, ids: seq<nat>): Store {
    if ids == [] then s else Reclaimed(ReclaimAll(s, ids[..|ids| - 1]), ids[|ids| - 1])
  }

  function ChildRow(key: Key, e: nat): Row {
    Row(Queued, Some(e), None, Some(key))
  }

  /** A taken key keeps its row. */
  function WithChild(s: Store, key: Key, e: nat): Store {
    if Child(key, e) in s.operations then s else s.(operations := s.operations[Child(key, e) := ChildRow(key, e)])
  }

  /** The children of a batch, and how many of them are queued. */
  function EnqueueAll(s: Store, key: Key, ids: seq<nat>): (Store, nat) {
    if ids == [] then (s, 0)
    else
      var (before, n) := EnqueueAll(s, key, ids[..|ids| - 1]);
      var after := WithChild(before, key, ids[|ids| - 1]);
      (after, if after.operations[Child(key, ids[|ids| - 1])].status == Queued then n + 1 else n)
  }

  // ---------- The fan-out ----------

  /** What the batch loop leaves: the store, the children queued and the batches counted. */
  datatype Loop = Loop(store: Store, queued: nat, batches: nat)

  function AddTo(queued: nat, batches: nat, rest: Loop): Loop {
    Loop(rest.store, queued + rest.queued, batches + rest.batches)
  }

  /** At most `most` batches; an empty or a short one is the last. */
  function DrainLoop(s: Store, inbox: seq<nat>, key: Key, limit: nat, most: nat): Loop
    decreases most
  {
    if most == 0 then Loop(s, 0, 0)
    else
      var ready := ReclaimAll(s, ListedOrphans(s, inbox, limit));
      var ids := ListedWaiting(ready, inbox, limit);
      if ids == [] then Loop(ready, 0, 0)
      else
        var (next, n) := EnqueueAll(ready, key, ids);
        if |ids| < limit then Loop(next, n, 1) else AddTo(n, 1, DrainLoop(next, inbox, key, limit, most - 1))
  }

  function ContinuationRow(limit: nat): Row {
    Row(Queued, None, Some(limit), None)
  }

  predicate AnyListed(s: Store, inbox: seq<nat>) {
    ListedOrphans(s, inbox, 1) != [] || ListedWaiting(s, inbox, 1) != []
  }

  datatype FanOutResult = FanOutResult(store: Store, queued: nat, continued: bool)

  function FanOut(s: Store, inbox: seq<nat>, key: Key, limit: nat, most: nat): FanOutResult {
    var done := DrainLoop(s, inbox, key, limit, most);
    if done.batches < most || !AnyListed(done.store, inbox) then FanOutResult(done.store, done.queued, false)
    else if Continuation(key) in done.store.operations then
      FanOutResult(done.store, done.queued, done.store.operations[Continuation(key)].status == Queued)
    else FanOutResult(done.store.(operations := done.store.operations[Continuation(key) := ContinuationRow(limit)]), done.queued, true)
  }

  // ---------- Facts about the queries ----------

  predicate NoDup(s: seq<nat>) {
    forall i, j :: 0 <= i < j < |s| ==> s[i] != s[j]
  }

  function Min(a: nat, b: nat): nat {
    if a < b then a else b
  }

  function SetOf(ids: seq<nat>): set<nat> {
    set e | e in ids
  }

  lemma {:induction false} SelectExactly(ids: seq<nat>, keep: set<nat>)
    requires NoDup(ids)
    ensures NoDup(Select(ids, keep))
    ensures forall e :: e in Select(ids, keep) <==> e in ids && e in keep
  {
    if ids != [] {
      var front, last := ids[..|ids| - 1], ids[|ids| - 1];
      SelectExactly(front, keep);
      assert ids == front + [last];
      assert last !in front;
    }
  }

  lemma {:induction false} NoDupCount(s: seq<nat>, members: set<nat>)
    requires NoDup(s) && forall e :: e in s <==> e in members
    ensures |s| == |members|
  {
    if s == [] {
      forall e ensures e !in members {
        assert e !in s;
      }
    } else {
      var front, last := s[..|s| - 1], s[|s| - 1];
      assert s == front + [last];
      NoDupCount(front, members - {last});
    }
  }

  lemma {:induction false} DedupeNoDup(rows: seq<nat>)
    requires NoDup(rows)
    ensures Dedupe(rows) == rows
  {
    if rows != [] {
      DedupeNoDup(rows[..|rows| - 1]);
      assert rows == rows[..|rows| - 1] + [rows[|rows| - 1]];
    }
  }

  /** With one run per orphan the join has one row per orphan. */
  lemma {:induction false} OneRowEach(s: Store, ids: seq<nat>, orphans: set<nat>)
    requires forall e :: e in ids ==> (e in orphans <==> Orphan(s, e)) && (Orphan(s, e) ==> CountRuns(s.runs, e) == 1)
    ensures OrphanRows(s, ids) == Select(ids, orphans)
  {
    if ids != [] {
      OneRowEach(s, ids[..|ids| - 1], orphans);
      var e := ids[|ids| - 1];
      assert e in ids;
      assert Copies(e, 1) == [e];
    }
  }

  lemma SubsetCount(a: set<nat>, b: set<nat>)
    requires a <= b
    ensures |a| <= |b|
  {
    assert b == a + (b - a);
  }

  // ---------- Tidy mail ----------

  /** Each orphan has one awaiting run and no live operation. */
  predicate Tidy(s: Store, inbox: seq<nat>) {
    forall e :: e in inbox && Orphan(s, e) ==> CountRuns(s.runs, e) == 1 && !Busy(s, e)
  }

  lemma {:induction false} RunClosed(runs: seq<RunRow>, i: nat, e: nat, f: nat)
    requires i < |runs| && Orphaned(runs[i], e)
    ensures CountRuns(runs[i := runs[i].(awaiting := false)], f) == CountRuns(runs, f) - if f == e then 1 else 0
  {
    var after := runs[i := runs[i].(awaiting := false)];
    var front := runs[..|runs| - 1];
    if i < |front| {
      RunClosed(front, i, e, f);
      assert after[..|after| - 1] == front[i := front[i].(awaiting := false)];
    } else {
      assert after[..|after| - 1] == front;
    }
  }

  lemma ReclaimedStatus(s: Store, e: nat, f: nat)
    requires Orphan(s, e)
    ensures Reclaimed(s, e).operations == s.operations
    ensures f != e ==> Waiting(Reclaimed(s, e), f) == Waiting(s, f) && Orphan(Reclaimed(s, e), f) == Orphan(s, f)
    ensures f != e ==> CountRuns(Reclaimed(s, e).runs, f) == CountRuns(s.runs, f)
    ensures Waiting(Reclaimed(s, e), e) == !Busy(s, e) && !Orphan(Reclaimed(s, e), e)
    ensures Busy(Reclaimed(s, e), f) == Busy(s, f)
  {
    RunClosed(s.runs, LatestRun(s.runs, e).value, e, f);
  }

  function Free(s: Store, emails: set<nat>): set<nat> {
    set e | e in emails && !Busy(s, e)
  }

  lemma ReclaimKeeps(s: Store, inbox: seq<nat>, e: nat)
    requires e in inbox && Orphan(s, e)
    ensures Reclaimed(s, e).operations == s.operations
    ensures WaitingSet(Reclaimed(s, e), inbox) == WaitingSet(s, inbox) + Free(s, {e})
    ensures OrphanSet(Reclaimed(s, e), inbox) == OrphanSet(s, inbox) - {e}
    ensures Tidy(s, inbox) ==> Tidy(Reclaimed(s, e), inbox)
  {
    forall f {
      ReclaimedStatus(s, e, f);
    }
  }

  /** Reclaiming turns the listed orphans with no live operation, and nothing else, into waiting mail. */
  lemma {:induction false} ReclaimAllKeeps(s: Store, inbox: seq<nat>, ids: seq<nat>)
    requires NoDup(ids) && SetOf(ids) <= OrphanSet(s, inbox)
    ensures ReclaimAll(s, ids).operations == s.operations
    ensures WaitingSet(ReclaimAll(s, ids), inbox) == WaitingSet(s, inbox) + Free(s, SetOf(ids))
    ensures OrphanSet(ReclaimAll(s, ids), inbox) == OrphanSet(s, inbox) - SetOf(ids)
    ensures Tidy(s, inbox) ==> Tidy(ReclaimAll(s, ids), inbox)
  {
    if ids != [] {
      var front, last := ids[..|ids| - 1], ids[|ids| - 1];
      SetOfLast(ids);
      ReclaimAllKeeps(s, inbox, front);
      assert last in SetOf(ids);
      assert last in OrphanSet(ReclaimAll(s, front), inbox);
      ReclaimKeeps(ReclaimAll(s, front), inbox, last);
      FreeSum(s, ReclaimAll(s, front), SetOf(front), {last});
    }
  }

  lemma FreeSum(s: Store, s': Store, a: set<nat>, b: set<nat>)
    requires s'.operations == s.operations
    ensures Free(s, a) + Free(s', b) == Free(s, a + b)
  {
  }

  lemma ReclaimAllTidy(s: Store, inbox: seq<nat>, ids: seq<nat>)
    requires Tidy(s, inbox) && NoDup(ids) && SetOf(ids) <= OrphanSet(s, inbox)
    ensures ReclaimAll(s, ids).operations == s.operations && Tidy(ReclaimAll(s, ids), inbox)
    ensures WaitingSet(ReclaimAll(s, ids), inbox) == WaitingSet(s, inbox) + SetOf(ids)
    ensures OrphanSet(ReclaimAll(s, ids), inbox) == OrphanSet(s, inbox) - SetOf(ids)
  {
    ReclaimAllKeeps(s, inbox, ids);
    forall e | e in SetOf(ids) ensures !Busy(s, e) {
      assert e in OrphanSet(s, inbox);
    }
    assert Free(s, SetOf(ids)) == SetOf(ids);
  }

  lemma SetOfLast(ids: seq<nat>)
    requires ids != [] && NoDup(ids)
    ensures SetOf(ids) == SetOf(ids[..|ids| - 1]) + {ids[|ids| - 1]} && ids[|ids| - 1] !in SetOf(ids[..|ids| - 1])
  {
    assert ids == ids[..|ids| - 1] + [ids[|ids| - 1]];
  }

  lemma {:induction false} RowsAreOrphans(s: Store, ids: seq<nat>)
    ensures forall e :: e in OrphanRows(s, ids) ==> e in ids && Orphan(s, e)
  {
    if ids != [] {
      RowsAreOrphans(s, ids[..|ids| - 1]);
      OnlyCopies(ids[|ids| - 1], CountRuns(s.runs, ids[|ids| - 1]));
    }
  }

  lemma {:induction false} OnlyCopies(e: nat, n: nat)
    ensures forall f :: f in Copies(e, n) ==> f == e
  {
    if n > 0 { OnlyCopies(e, n - 1); }
  }

  lemma {:induction false} DedupeExactly(rows: seq<nat>)
    ensures NoDup(Dedupe(rows)) && forall e :: e in Dedupe(rows) <==> e in rows
  {
    if rows != [] {
      var front, last := rows[..|rows| - 1], rows[|rows| - 1];
      DedupeExactly(front);
      assert rows == front + [last];
    }
  }

  lemma ListedOrphansExactly(s: Store, inbox: seq<nat>, limit: nat)
    ensures NoDup(ListedOrphans(s, inbox, limit))
    ensures SetOf(ListedOrphans(s, inbox, limit)) == SetOf(Limit(OrphanRows(s, inbox), limit))
    ensures SetOf(ListedOrphans(s, inbox, limit)) <= OrphanSet(s, inbox)
  {
    var rows := OrphanRows(s, inbox);
    DedupeExactly(Limit(rows, limit));
    RowsAreOrphans(s, inbox);
    forall e | e in Limit(rows, limit) ensures e in rows {
    }
  }

  lemma ListedOrphansTidy(s: Store, inbox: seq<nat>, limit: nat)
    requires NoDup(inbox) && Tidy(s, inbox)
    ensures NoDup(ListedOrphans(s, inbox, limit))
    ensures SetOf(ListedOrphans(s, inbox, limit)) <= OrphanSet(s, inbox)
    ensures |ListedOrphans(s, inbox, limit)| == Min(limit, |OrphanSet(s, inbox)|)
    ensures |ListedOrphans(s, inbox, limit)| < limit ==> SetOf(ListedOrphans(s, inbox, limit)) == OrphanSet(s, inbox)
  {
    var orphans := OrphanSet(s, inbox);
    OneRowEach(s, inbox, orphans);
    SelectExactly(inbox, orphans);
    var rows := Select(inbox, orphans);
    NoDupCount(rows, orphans);
    DedupeNoDup(Limit(rows, limit));
    forall e | e in Limit(rows, limit) ensures e in rows {
    }
  }

  lemma ListedWaitingExactly(s: Store, inbox: seq<nat>, limit: nat)
    requires NoDup(inbox)
    ensures NoDup(ListedWaiting(s, inbox, limit))
    ensures SetOf(ListedWaiting(s, inbox, limit)) <= WaitingSet(s, inbox)
    ensures |ListedWaiting(s, inbox, limit)| == Min(limit, |WaitingSet(s, inbox)|)
  {
    var waiting := WaitingSet(s, inbox);
    SelectExactly(inbox, waiting);
    NoDupCount(Select(inbox, waiting), waiting);
    forall e | e in Limit(Select(inbox, waiting), limit) ensures e in Select(inbox, waiting) {
    }
  }

  /** The store a batch is listed from. */
  function Ready(s: Store, inbox: seq<nat>, limit: nat): Store {
    ReclaimAll(s, ListedOrphans(s, inbox, limit))
  }

  /** The emails among the first `limit` rows of the join that have no live operation. */
  function Reachable(s: Store, inbox: seq<nat>, limit: nat): set<nat> {
    Free(s, SetOf(Limit(OrphanRows(s, inbox), limit)))
  }

  /** Over any mail a batch holds the waiting emails and the reachable orphans, up to the limit. So
      it is shorter than the limit and the drainable mail allow exactly when these are too few. */
  lemma BatchExactly(s: Store, inbox: seq<nat>, limit: nat)
    requires NoDup(inbox)
    ensures var found, batch := |WaitingSet(s, inbox)| + |Reachable(s, inbox, limit)|, |Batch(s, inbox, limit)|;
            && batch == Min(limit, found)
            && (batch < Min(limit, |Drainable(s, inbox)|) <==> found < Min(limit, |Drainable(s, inbox)|))
  {
    ListedOrphansExactly(s, inbox, limit);
    ReclaimAllKeeps(s, inbox, ListedOrphans(s, inbox, limit));
    ListedWaitingExactly(Ready(s, inbox, limit), inbox, limit);
    NoOverlap(s, inbox);
    assert |WaitingSet(s, inbox) + Reachable(s, inbox, limit)| == |WaitingSet(s, inbox)| + |Reachable(s, inbox, limit)|;
  }

  /** A batch is as long as the limit and the drainable mail allow. */
  lemma BatchFull(s: Store, inbox: seq<nat>, limit: nat)
    requires NoDup(inbox) && Tidy(s, inbox)
    ensures Tidy(Ready(s, inbox, limit), inbox) && Ready(s, inbox, limit).operations == s.operations
    ensures Drainable(Ready(s, inbox, limit), inbox) == Drainable(s, inbox)
    ensures NoDup(ListedWaiting(Ready(s, inbox, limit), inbox, limit))
    ensures SetOf(ListedWaiting(Ready(s, inbox, limit), inbox, limit)) <= WaitingSet(Ready(s, inbox, limit), inbox)
    ensures |ListedWaiting(Ready(s, inbox, limit), inbox, limit)| == Min(limit, |Drainable(s, inbox)|)
  {
    var ids := ListedOrphans(s, inbox, limit);
    ListedOrphansTidy(s, inbox, limit);
    ReclaimAllTidy(s, inbox, ids);
    ListedWaitingExactly(Ready(s, inbox, limit), inbox, limit);
    EnoughWaiting(WaitingSet(s, inbox), OrphanSet(s, inbox), ids, limit);
  }

  lemma EnoughWaiting(waiting: set<nat>, orphans: set<nat>, ids: seq<nat>, limit: nat)
    requires NoDup(ids) && SetOf(ids) <= orphans && |ids| <= limit && (|ids| < limit ==> SetOf(ids) == orphans)
    ensures (waiting + SetOf(ids)) + (orphans - SetOf(ids)) == waiting + orphans
    ensures Min(limit, |waiting + SetOf(ids)|) == Min(limit, |waiting + orphans|)
  {
    NoDupCount(ids, SetOf(ids));
    SubsetCount(SetOf(ids), waiting + SetOf(ids));
    SubsetCount(waiting + SetOf(ids), waiting + orphans);
  }

  // ---------- Children ----------

  function Children(key: Key, emails: set<nat>): map<Key, Row> {
    map e | e in emails :: Child(key, e) := Row(Queued, Some(e), None, Some(key))
  }

  /** None of these emails has a child of this operation. */
  predicate Childless(s: Store, key: Key, emails: set<nat>) {
    forall e {:trigger Child(key, e) in s.operations} :: e in emails ==> Child(key, e) !in s.operations
  }

  lemma ChildBusies(s: Store, key: Key, e: nat, f: nat)
    requires Child(key, e) !in s.operations
    ensures Busy(WithChild(s, key, e), f) <==> f == e || Busy(s, f)
  {
    var s' := WithChild(s, key, e);
    assert s'.operations[Child(key, e)].email == Some(e);
    if Busy(s, f) {
      var k :| k in s.operations && s.operations[k].email == Some(f) && (s.operations[k].status == Queued || s.operations[k].status == Running);
      assert s'.operations[k] == s.operations[k];
    }
  }

  /** Queuing a child for a waiting email takes that email, and no other, off the drainable mail. */
  lemma ChildKeeps(s: Store, inbox: seq<nat>, key: Key, e: nat)
    requires Tidy(s, inbox) && Waiting(s, e) && Child(key, e) !in s.operations
    ensures WaitingSet(WithChild(s, key, e), inbox) == WaitingSet(s, inbox) - {e}
    ensures OrphanSet(WithChild(s, key, e), inbox) == OrphanSet(s, inbox)
    ensures Tidy(WithChild(s, key, e), inbox)
  {
    forall f {
      ChildBusies(s, key, e, f);
    }
    assert !Orphan(s, e);
  }

  lemma ChildrenMore(operations: map<Key, Row>, key: Key, taken: set<nat>, e: nat)
    ensures (operations + Children(key, taken))[Child(key, e) := ChildRow(key, e)] == operations + Children(key, taken + {e})
  {
    assert Children(key, taken + {e}) == Children(key, taken)[Child(key, e) := ChildRow(key, e)];
  }

  lemma ChildrenSum(operations: map<Key, Row>, key: Key, a: set<nat>, b: set<nat>)
    ensures (operations + Children(key, a)) + Children(key, b) == operations + Children(key, a + b)
  {
    assert Children(key, a + b) == Children(key, a) + Children(key, b);
  }

  lemma {:induction false} EnqueueAllKeeps(s: Store, inbox: seq<nat>, key: Key, ids: seq<nat>)
    requires Tidy(s, inbox) && NoDup(ids) && SetOf(ids) <= WaitingSet(s, inbox) && Childless(s, key, SetOf(ids))
    ensures EnqueueAll(s, key, ids).1 == |ids|
    ensures EnqueueAll(s, key, ids).0.operations == s.operations + Children(key, SetOf(ids))
    ensures WaitingSet(EnqueueAll(s, key, ids).0, inbox) == WaitingSet(s, inbox) - SetOf(ids)
    ensures OrphanSet(EnqueueAll(s, key, ids).0, inbox) == OrphanSet(s, inbox)
    ensures Tidy(EnqueueAll(s, key, ids).0, inbox)
  {
    if ids == [] {
      assert Children(key, {}) == map[];
      assert s.operations + map[] == s.operations;
      assert SetOf(ids) == {};
    } else {
      var front, e := ids[..|ids| - 1], ids[|ids| - 1];
      SetOfLast(ids);
      EnqueueAllKeeps(s, inbox, key, front);
      var before := EnqueueAll(s, key, front).0;
      assert e in SetOf(ids) && e in WaitingSet(before, inbox);
      assert Child(key, e) !in before.operations;
      ChildKeeps(before, inbox, key, e);
      ChildrenMore(s.operations, key, SetOf(front), e);
    }
  }

  // ---------- What a fan-out achieves ----------

  function Batch(s: Store, inbox: seq<nat>, limit: nat): seq<nat> {
    ListedWaiting(Ready(s, inbox, limit), inbox, limit)
  }

  /** The store after one batch. */
  function Turn(s: Store, inbox: seq<nat>, key: Key, limit: nat): Store {
    EnqueueAll(Ready(s, inbox, limit), key, Batch(s, inbox, limit)).0
  }

  ghost predicate Startable(s: Store, inbox: seq<nat>, key: Key) {
    NoDup(inbox) && Tidy(s, inbox) && Childless(s, key, Drainable(s, inbox))
  }

  lemma TurnTakes(s: Store, inbox: seq<nat>, key: Key, limit: nat)
    requires Startable(s, inbox, key)
    ensures EnqueueAll(Ready(s, inbox, limit), key, Batch(s, inbox, limit)).1 == |Batch(s, inbox, limit)|
    ensures Tidy(Turn(s, inbox, key, limit), inbox)
    ensures Drainable(Turn(s, inbox, key, limit), inbox) == Drainable(s, inbox) - SetOf(Batch(s, inbox, limit))
    ensures Turn(s, inbox, key, limit).operations == s.operations + Children(key, SetOf(Batch(s, inbox, limit)))
  {
    BatchFull(s, inbox, limit);
    EnqueueAllKeeps(Ready(s, inbox, limit), inbox, key, Batch(s, inbox, limit));
    NoOverlap(Ready(s, inbox, limit), inbox);
  }

  lemma BatchTakes(s: Store, inbox: seq<nat>, limit: nat)
    requires NoDup(inbox) && Tidy(s, inbox)
    ensures SetOf(Batch(s, inbox, limit)) <= Drainable(s, inbox)
    ensures |SetOf(Batch(s, inbox, limit))| == |Batch(s, inbox, limit)| == Min(limit, |Drainable(s, inbox)|)
    ensures |Drainable(s, inbox) - SetOf(Batch(s, inbox, limit))| == |Drainable(s, inbox)| - |Batch(s, inbox, limit)|
  {
    BatchFull(s, inbox, limit);
    NoDupCount(Batch(s, inbox, limit), SetOf(Batch(s, inbox, limit)));
    TakenCount(Drainable(s, inbox), SetOf(Batch(s, inbox, limit)));
  }

  lemma TakenCount(all: set<nat>, taken: set<nat>)
    ensures taken <= all ==> |all - taken| == |all| - |taken|
  {
  }

  lemma NoOverlap(s: Store, inbox: seq<nat>)
    ensures WaitingSet(s, inbox) !! OrphanSet(s, inbox)
  {
  }

  lemma TurnStartable(s: Store, inbox: seq<nat>, key: Key, limit: nat)
    requires Startable(s, inbox, key)
    ensures Startable(Turn(s, inbox, key, limit), inbox, key)
  {
    TurnTakes(s, inbox, key, limit);
    BatchTakes(s, inbox, limit);
  }

  lemma DrainLoopUnfolds(s: Store, inbox: seq<nat>, key: Key, limit: nat, most: nat)
    requires most > 0 && Startable(s, inbox, key)
    ensures |Batch(s, inbox, limit)| <= limit
    ensures |Batch(s, inbox, limit)| == 0 ==> DrainLoop(s, inbox, key, limit, most) == Loop(Turn(s, inbox, key, limit), 0, 0)
    ensures 0 < |Batch(s, inbox, limit)| < limit ==>
              DrainLoop(s, inbox, key, limit, most) == Loop(Turn(s, inbox, key, limit), |Batch(s, inbox, limit)|, 1)
    ensures 0 < |Batch(s, inbox, limit)| == limit ==>
              DrainLoop(s, inbox, key, limit, most) == AddTo(limit, 1, DrainLoop(Turn(s, inbox, key, limit), inbox, key, limit, most - 1))
  {
    TurnTakes(s, inbox, key, limit);
    BatchTakes(s, inbox, limit);
  }

  lemma {:induction false} LoopTidy(s: Store, inbox: seq<nat>, key: Key, limit: nat, most: nat)
    requires Startable(s, inbox, key)
    ensures Tidy(DrainLoop(s, inbox, key, limit, most).store, inbox)
    decreases most
  {
    if most > 0 {
      TurnStartable(s, inbox, key, limit);
      LoopTidy(Turn(s, inbox, key, limit), inbox, key, limit, most - 1);
      LoopTidyStep(s, inbox, key, limit, most);
    }
  }

  lemma LoopTidyStep(s: Store, inbox: seq<nat>, key: Key, limit: nat, most: nat)
    requires most > 0 && Startable(s, inbox, key)
    requires Tidy(DrainLoop(Turn(s, inbox, key, limit), inbox, key, limit, most - 1).store, inbox)
    ensures Tidy(DrainLoop(s, inbox, key, limit, most).store, inbox)
  {
    TurnTakes(s, inbox, key, limit);
    LoopEnd(s, inbox, key, limit, most);
  }

  /** The loop ends where its first turn ends, or where the rest of the loop ends. */
  lemma LoopEnd(s: Store, inbox: seq<nat>, key: Key, limit: nat, most: nat)
    requires most > 0 && Startable(s, inbox, key)
    ensures || DrainLoop(s, inbox, key, limit, most).store == Turn(s, inbox, key, limit)
            || DrainLoop(s, inbox, key, limit, most).store == DrainLoop(Turn(s, inbox, key, limit), inbox, key, limit, most - 1).store
  {
    DrainLoopUnfolds(s, inbox, key, limit, most);
  }

  /** The children so far are those of the mail that is no longer drainable. */
  ghost predicate Took(all: set<nat>, left: set<nat>, before: map<Key, Row>, key: Key, after: map<Key, Row>) {
    left <= all && after == before + Children(key, all - left)
  }

  lemma TookNothing(all: set<nat>, operations: map<Key, Row>, key: Key)
    ensures Took(all, all, operations, key, operations)
  {
    var none: set<nat> := {};
    assert all - all == none;
    assert Children(key, none) == map[];
  }

  lemma TookMore(all: set<nat>, taken: set<nat>, end: set<nat>, before: map<Key, Row>, key: Key, after: map<Key, Row>)
    requires taken <= all && Took(all - taken, end, before + Children(key, taken), key, after)
    ensures Took(all, end, before, key, after)
  {
    ChildrenSum(before, key, taken, (all - taken) - end);
    assert taken + ((all - taken) - end) == all - end;
  }

  lemma {:induction false} LoopRows(s: Store, inbox: seq<nat>, key: Key, limit: nat, most: nat)
    requires Startable(s, inbox, key)
    ensures var end := DrainLoop(s, inbox, key, limit, most).store;
            Took(Drainable(s, inbox), Drainable(end, inbox), s.operations, key, end.operations)
    decreases most
  {
    if most == 0 {
      TookNothing(Drainable(s, inbox), s.operations, key);
    } else {
      var next := Turn(s, inbox, key, limit);
      TurnStartable(s, inbox, key, limit);
      LoopRows(next, inbox, key, limit, most - 1);
      LoopRowsStep(s, inbox, key, limit, most);
    }
  }

  lemma LoopRowsStep(s: Store, inbox: seq<nat>, key: Key, limit: nat, most: nat)
    requires most > 0 && Startable(s, inbox, key)
    requires var next := Turn(s, inbox, key, limit);
             var end := DrainLoop(next, inbox, key, limit, most - 1).store;
             Took(Drainable(next, inbox), Drainable(end, inbox), next.operations, key, end.operations)
    ensures var end := DrainLoop(s, inbox, key, limit, most).store;
            Took(Drainable(s, inbox), Drainable(end, inbox), s.operations, key, end.operations)
  {
    var next := Turn(s, inbox, key, limit);
    var end := DrainLoop(s, inbox, key, limit, most).store;
    DrainLoopUnfolds(s, inbox, key, limit, most);
    TurnTakes(s, inbox, key, limit);
    BatchTakes(s, inbox, limit);
    if |Batch(s, inbox, limit)| < limit || limit == 0 { TookNothing(Drainable(next, inbox), next.operations, key); }
    TookMore(Drainable(s, inbox), SetOf(Batch(s, inbox, limit)), Drainable(end, inbox), s.operations, key, end.operations);
  }

  /** The mail `most` full batches hold. */
  function Full(most: nat, limit: nat): nat {
    if most == 0 then 0 else Full(most - 1, limit) + limit
  }

  lemma {:induction false} FullProduct(most: nat, limit: nat)
    ensures Full(most, limit) == most * limit
  {
    if most > 0 {
      FullProduct(most - 1, limit);
      assert most * limit == (most - 1) * limit + limit;
    }
  }

  /** `all` and `left` count the drainable mail before and after the loop. */
  predicate Counted(all: nat, left: nat, limit: nat, most: nat, done: Loop) {
    && done.queued == Min(all, Full(most, limit)) && left == all - done.queued
    && done.batches <= most && (done.batches < most ==> left == 0)
  }

  lemma {:induction false} LoopCounts(s: Store, inbox: seq<nat>, key: Key, limit: nat, most: nat)
    requires limit >= 1 && Startable(s, inbox, key)
    ensures var done := DrainLoop(s, inbox, key, limit, most);
            Counted(|Drainable(s, inbox)|, |Drainable(done.store, inbox)|, limit, most, done)
    decreases most
  {
    if most == 0 {
      CountedNone(s, inbox, key, limit);
    } else {
      TurnStartable(s, inbox, key, limit);
      LoopCounts(Turn(s, inbox, key, limit), inbox, key, limit, most - 1);
      LoopCountsStep(s, inbox, key, limit, most);
    }
  }

  lemma CountedNone(s: Store, inbox: seq<nat>, key: Key, limit: nat)
    ensures DrainLoop(s, inbox, key, limit, 0) == Loop(s, 0, 0)
    ensures Counted(|Drainable(s, inbox)|, |Drainable(s, inbox)|, limit, 0, Loop(s, 0, 0))
  {
  }

  lemma CountedMore(all: nat, left: nat, limit: nat, most: nat, rest: Loop)
    requires most > 0 && limit <= all && Counted(all - limit, left, limit, most - 1, rest)
    ensures Counted(all, left, limit, most, AddTo(limit, 1, rest))
  {
  }

  lemma CountedLast(all: nat, limit: nat, most: nat, store: Store)
    requires most > 0 && all < limit
    ensures Counted(all, 0, limit, most, Loop(store, all, if all == 0 then 0 else 1))
  {
  }

  lemma LoopCountsStep(s: Store, inbox: seq<nat>, key: Key, limit: nat, most: nat)
    requires limit >= 1 && most > 0 && Startable(s, inbox, key)
    requires var next := Turn(s, inbox, key, limit);
             var done := DrainLoop(next, inbox, key, limit, most - 1);
             Counted(|Drainable(next, inbox)|, |Drainable(done.store, inbox)|, limit, most - 1, done)
    ensures var done := DrainLoop(s, inbox, key, limit, most);
            Counted(|Drainable(s, inbox)|, |Drainable(done.store, inbox)|, limit, most, done)
  {
    BatchTakes(s, inbox, limit);
    if |Batch(s, inbox, limit)| == limit {
      FullTurnCounts(s, inbox, key, limit, most, DrainLoop(Turn(s, inbox, key, limit), inbox, key, limit, most - 1));
    } else {
      LastTurnCounts(s, inbox, key, limit, most);
    }
  }

  lemma FullTurnCounts(s: Store, inbox: seq<nat>, key: Key, limit: nat, most: nat, rest: Loop)
    requires limit >= 1 && most > 0 && Startable(s, inbox, key) && |Batch(s, inbox, limit)| == limit
    requires rest == DrainLoop(Turn(s, inbox, key, limit), inbox, key, limit, most - 1)
    requires Counted(|Drainable(Turn(s, inbox, key, limit), inbox)|, |Drainable(rest.store, inbox)|, limit, most - 1, rest)
    ensures DrainLoop(s, inbox, key, limit, most) == AddTo(limit, 1, rest)
    ensures Counted(|Drainable(s, inbox)|, |Drainable(rest.store, inbox)|, limit, most, AddTo(limit, 1, rest))
  {
    DrainLoopUnfolds(s, inbox, key, limit, most);
    TurnTakes(s, inbox, key, limit);
    BatchTakes(s, inbox, limit);
    CountedMore(|Drainable(s, inbox)|, |Drainable(rest.store, inbox)|, limit, most, rest);
  }

  lemma LastTurnCounts(s: Store, inbox: seq<nat>, key: Key, limit: nat, most: nat)
    requires limit >= 1 && most > 0 && Startable(s, inbox, key) && |Batch(s, inbox, limit)| < limit
    ensures var done := DrainLoop(s, inbox, key, limit, most);
            Counted(|Drainable(s, inbox)|, |Drainable(done.store, inbox)|, limit, most, done)
  {
    DrainLoopUnfolds(s, inbox, key, limit, most);
    TurnTakes(s, inbox, key, limit);
    BatchTakes(s, inbox, limit);
    CountedLast(|Drainable(s, inbox)|, limit, most, Turn(s, inbox, key, limit));
  }

  function WithRows(operations: map<Key, Row>, key: Key, emails: set<nat>, limit: nat, continues: bool): map<Key, Row> {
    var made := operations + Children(key, emails);
    if continues then made[Continuation(key) := Row(Queued, None, Some(limit), None)] else made
  }

  /** Exactly min(D, most * limit) of the D drainable emails got one child each; a continuation
      exists exactly when some are left. */
  ghost predicate FannedOut(inbox: seq<nat>, s: Store, key: Key, limit: nat, most: nat, s': Store) {
    var before, after := Drainable(s, inbox), Drainable(s', inbox);
    && Tidy(s', inbox) && after <= before && |after| == |before| - Min(|before|, most * limit)
    && s'.operations == WithRows(s.operations, key, before - after, limit, |before| > most * limit)
  }

  lemma ListedExactly(s: Store, inbox: seq<nat>)
    requires NoDup(inbox) && Tidy(s, inbox)
    ensures AnyListed(s, inbox) <==> Drainable(s, inbox) != {}
  {
    ListedOrphansTidy(s, inbox, 1);
    ListedWaitingExactly(s, inbox, 1);
    if Drainable(s, inbox) == {} {
      assert WaitingSet(s, inbox) == {} && OrphanSet(s, inbox) == {};
    }
  }

  /** A continuation is nobody's child: it makes no email busy. */
  lemma ContinuationKeeps(s: Store, inbox: seq<nat>, key: Key, limit: nat)
    requires Continuation(key) !in s.operations
    ensures var s' := s.(operations := s.operations[Continuation(key) := ContinuationRow(limit)]);
            (Tidy(s, inbox) ==> Tidy(s', inbox)) && Drainable(s', inbox) == Drainable(s, inbox)
  {
    var s' := s.(operations := s.operations[Continuation(key) := ContinuationRow(limit)]);
    forall e: nat ensures Busy(s', e) <==> Busy(s, e) {
      if Busy(s, e) {
        var k :| k in s.operations && s.operations[k].email == Some(e) && (s.operations[k].status == Queued || s.operations[k].status == Running);
        assert s'.operations[k] == s.operations[k];
      }
    }
  }

  /** A first execution over tidy mail with nothing else running. */
  lemma FanOutExactly(s: Store, inbox: seq<nat>, key: Key, limit: nat, most: nat)
    requires limit >= 1 && Startable(s, inbox, key) && Continuation(key) !in s.operations
    ensures var r := FanOut(s, inbox, key, limit, most);
            && FannedOut(inbox, s, key, limit, most, r.store)
            && r.queued == Min(|Drainable(s, inbox)|, most * limit)
            && (r.continued <==> |Drainable(s, inbox)| > most * limit)
            && (r.continued ==> Continuation(key) in r.store.operations
                                && r.store.operations[Continuation(key)] == Row(Queued, None, Some(limit), None))
            && forall e :: e in Drainable(s, inbox) - Drainable(r.store, inbox) ==>
                 Child(key, e) in r.store.operations && r.store.operations[Child(key, e)] == Row(Queued, Some(e), None, Some(key))
  {
    FanOutDone(s, inbox, key, limit, most);
    NewRows(s, FanOut(s, inbox, key, limit, most).store, inbox, key, limit, most);
  }

  lemma NewRows(s: Store, s': Store, inbox: seq<nat>, key: Key, limit: nat, most: nat)
    requires FannedOut(inbox, s, key, limit, most, s')
    ensures |Drainable(s, inbox)| > most * limit ==>
              Continuation(key) in s'.operations && s'.operations[Continuation(key)] == Row(Queued, None, Some(limit), None)
    ensures forall e :: e in Drainable(s, inbox) - Drainable(s', inbox) ==>
              Child(key, e) in s'.operations && s'.operations[Child(key, e)] == Row(Queued, Some(e), None, Some(key))
  {
  }

  lemma FanOutDone(s: Store, inbox: seq<nat>, key: Key, limit: nat, most: nat)
    requires limit >= 1 && Startable(s, inbox, key) && Continuation(key) !in s.operations
    ensures var r := FanOut(s, inbox, key, limit, most);
            && FannedOut(inbox, s, key, limit, most, r.store)
            && r.queued == Min(|Drainable(s, inbox)|, most * limit)
            && (r.continued <==> |Drainable(s, inbox)| > most * limit)
  {
    var done := DrainLoop(s, inbox, key, limit, most);
    LoopTidy(s, inbox, key, limit, most);
    LoopRows(s, inbox, key, limit, most);
    LoopCounts(s, inbox, key, limit, most);
    FullProduct(most, limit);
    LeftBehind(Drainable(s, inbox), Drainable(done.store, inbox), most * limit);
    FanOutUnfolds(s, inbox, key, limit, most, done);
    FanOutEnds(s, inbox, key, limit, most, done, done.batches < most);
  }

  /** After the loop: a continuation is queued exactly when a last full batch left mail behind. */
  lemma FanOutEnds(s: Store, inbox: seq<nat>, key: Key, limit: nat, most: nat, done: Loop, stopped: bool)
    requires Continuation(key) !in done.store.operations && Tidy(done.store, inbox)
    requires Took(Drainable(s, inbox), Drainable(done.store, inbox), s.operations, key, done.store.operations)
    requires |Drainable(done.store, inbox)| == |Drainable(s, inbox)| - Min(|Drainable(s, inbox)|, most * limit)
    requires stopped ==> Drainable(done.store, inbox) == {}
    ensures FannedOut(inbox, s, key, limit, most, AfterLoop(done.store, inbox, key, limit, stopped))
  {
    LeftBehind(Drainable(s, inbox), Drainable(done.store, inbox), most * limit);
    Continued(done.store, inbox, key, limit, stopped);
    var end := AfterLoop(done.store, inbox, key, limit, stopped);
    assert end.operations == WithRows(s.operations, key, Drainable(s, inbox) - Drainable(end, inbox), limit,
                                      Drainable(done.store, inbox) != {});
  }

  lemma FanOutUnfolds(s: Store, inbox: seq<nat>, key: Key, limit: nat, most: nat, done: Loop)
    requires NoDup(inbox) && done == DrainLoop(s, inbox, key, limit, most) && Tidy(done.store, inbox)
    requires Continuation(key) !in done.store.operations && (done.batches < most ==> Drainable(done.store, inbox) == {})
    ensures FanOut(s, inbox, key, limit, most)
         == FanOutResult(AfterLoop(done.store, inbox, key, limit, done.batches < most), done.queued, Drainable(done.store, inbox) != {})
  {
    ListedExactly(done.store, inbox);
  }

  lemma LeftBehind(all: set<nat>, left: set<nat>, most: nat)
    requires left <= all && |left| == |all| - Min(|all|, most)
    ensures left != {} <==> |all| > most
  {
    if left == {} { assert |left| == 0; }
  }

  function AfterLoop(s: Store, inbox: seq<nat>, key: Key, limit: nat, stopped: bool): Store {
    if stopped || Drainable(s, inbox) == {} then s else s.(operations := s.operations[Continuation(key) := ContinuationRow(limit)])
  }

  lemma Continued(s: Store, inbox: seq<nat>, key: Key, limit: nat, stopped: bool)
    requires Tidy(s, inbox) && Continuation(key) !in s.operations
    ensures Tidy(AfterLoop(s, inbox, key, limit, stopped), inbox)
    ensures Drainable(AfterLoop(s, inbox, key, limit, stopped), inbox) == Drainable(s, inbox)
  {
    ContinuationKeeps(s, inbox, key, limit);
  }

  // ---------- The chain of continuations ----------

  function KeyAt(key: Key, i: nat): Key {
    if i == 0 then key else Continuation(KeyAt(key, i - 1))
  }

  function Depth(key: Key): nat {
    match key
    case Submitted(_) => 0
    case Child(parent, _) => Depth(parent) + 1
    case Continuation(parent) => Depth(parent) + 1
  }

  lemma {:induction false} KeyDepth(key: Key, i: nat)
    ensures Depth(KeyAt(key, i)) == Depth(key) + i
  {
    if i > 0 { KeyDepth(key, i - 1); }
  }

  /** Execution `i` runs when its row is queued with a batch limit. */
  predicate Runs(s: Store, key: Key, i: nat) {
    var k := KeyAt(key, i);
    k in s.operations && s.operations[k].status == Queued && s.operations[k].batchLimit.Some?
  }

  function WithStatus(s: Store, k: Key, status: OperationStatus): Store
    requires k in s.operations
  {
    s.(operations := s.operations[k := s.operations[k].(status := status)])
  }

  /** The row is claimed, the batch limit is read from it, and the row is completed. */
  function Execution(s: Store, inbox: seq<nat>, key: Key, most: nat, i: nat): Store {
    if !Runs(s, key, i) then s
    else
      var k := KeyAt(key, i);
      var done := FanOut(WithStatus(s, k, Running), inbox, k, s.operations[k].batchLimit.value, most).store;
      if k in done.operations then WithStatus(done, k, Succeeded) else done
  }

  /** What execution `i` does to a store. */
  type Execute = (Store, nat) -> Store

  function Iterate(execute: Execute, s: Store, n: nat): Store {
    if n == 0 then s else execute(Iterate(execute, s, n - 1), n - 1)
  }

  function FanOuts(inbox: seq<nat>, key: Key, most: nat): Execute {
    (s: Store, i: nat) => Execution(s, inbox, key, most, i)
  }

  /** The store after the first `n` executions of an operation and of its continuations, with
      nothing else happening. */
  function Executions(s: Store, inbox: seq<nat>, key: Key, most: nat, n: nat): Store {
    Iterate(FanOuts(inbox, key, most), s, n)
  }

  /** Execution `i` has left no trace. */
  ghost predicate UntouchedAt(s: Store, key: Key, i: nat) {
    && Continuation(KeyAt(key, i)) !in s.operations
    && forall e {:trigger Child(KeyAt(key, i), e) in s.operations} :: Child(KeyAt(key, i), e) !in s.operations
  }

  ghost predicate Untouched(s: Store, key: Key, first: nat) {
    forall i: nat :: i >= first ==> UntouchedAt(s, key, i)
  }

  /** The row of execution `i` waits with this batch limit. */
  predicate Waits(s: Store, key: Key, i: nat, limit: nat) {
    var k := KeyAt(key, i);
    && k in s.operations && s.operations[k].status == Queued
    && s.operations[k].email.None? && s.operations[k].batchLimit == Some(limit)
  }

  /** What holds before execution `n`: the first was submitted, and a later one is queued, with the
      batch limit of the first, exactly when mail is left. */
  ghost predicate Ongoing(s: Store, inbox: seq<nat>, key: Key, limit: nat, n: nat) {
    && NoDup(inbox) && Tidy(s, inbox) && Untouched(s, key, n)
    && if n == 0 || Drainable(s, inbox) != {} then Waits(s, key, n, limit) else KeyAt(key, n) !in s.operations
  }

  /** The status of a row without an email matters to no query. */
  lemma StatusKeeps(s: Store, inbox: seq<nat>, k: Key, status: OperationStatus)
    requires k in s.operations && s.operations[k].email.None?
    ensures Drainable(WithStatus(s, k, status), inbox) == Drainable(s, inbox)
    ensures Tidy(s, inbox) ==> Tidy(WithStatus(s, k, status), inbox)
  {
    var s' := WithStatus(s, k, status);
    forall e: nat ensures Busy(s', e) <==> Busy(s, e) {
      SameBusy(s, s', k, e);
      SameBusy(s', s, k, e);
    }
    assert WaitingSet(s', inbox) == WaitingSet(s, inbox) && OrphanSet(s', inbox) == OrphanSet(s, inbox);
  }

  lemma SameBusy(s: Store, s': Store, k: Key, e: nat)
    requires s'.operations.Keys == s.operations.Keys
    requires k in s.operations && s.operations[k].email.None? && forall x :: x in s.operations && x != k ==> s'.operations[x] == s.operations[x]
    ensures Busy(s, e) ==> Busy(s', e)
  {
    if Busy(s, e) {
      var x :| x in s.operations && s.operations[x].email == Some(e) && (s.operations[x].status == Queued || s.operations[x].status == Running);
      assert s'.operations[x] == s.operations[x];
    }
  }

  /** The rows after execution `k`: as after a fan-out, and its own row has succeeded. */
  function RowsAfter(operations: map<Key, Row>, k: Key, taken: set<nat>, limit: nat, continues: bool): map<Key, Row>
    requires k in operations
  {
    WithRows(operations, k, taken, limit, continues)[k := operations[k].(status := Succeeded)]
  }

  lemma RowsUntouched(before: Store, after: Store, key: Key, n: nat, taken: set<nat>, limit: nat, continues: bool)
    requires Untouched(before, key, n) && KeyAt(key, n) in before.operations
    requires after.operations == RowsAfter(before.operations, KeyAt(key, n), taken, limit, continues)
    ensures Untouched(after, key, n + 1)
    ensures if continues then Waits(after, key, n + 1, limit) else KeyAt(key, n + 1) !in after.operations
  {
    assert UntouchedAt(before, key, n);
    KeyDepth(key, n);
    KeyDepth(key, n + 1);
    forall i: nat | i >= n + 1 ensures UntouchedAt(after, key, i) {
      assert UntouchedAt(before, key, i);
      KeyDepth(key, i);
    }
  }

  /** The fan-out of a claimed row, seen from before the claim to after the completion. */
  ghost predicate Ran(inbox: seq<nat>, s: Store, k: Key, limit: nat, most: nat, s': Store) {
    var before, after := Drainable(s, inbox), Drainable(s', inbox);
    && Tidy(s', inbox) && after <= before && |after| == |before| - Min(|before|, most * limit) && k in s.operations
    && s'.operations == RowsAfter(s.operations, k, before - after, limit, |before| > most * limit)
  }

  lemma RowsCommute(operations: map<Key, Row>, k: Key, row: Row, taken: set<nat>, limit: nat, continues: bool)
    ensures WithRows(operations[k := row], k, taken, limit, continues) == WithRows(operations, k, taken, limit, continues)[k := row]
  {
    assert Child(k, 0) != k by { assert Depth(Child(k, 0)) == Depth(k) + 1; }
    forall e: nat ensures Child(k, e) != k {
      assert Depth(Child(k, e)) == Depth(k) + 1;
    }
    assert Depth(Continuation(k)) == Depth(k) + 1;
  }

  lemma RunRan(s: Store, inbox: seq<nat>, k: Key, limit: nat, most: nat)
    requires limit >= 1 && Startable(s, inbox, k) && Continuation(k) !in s.operations && k in s.operations && s.operations[k].email.None?
    ensures var done := FanOut(WithStatus(s, k, Running), inbox, k, limit, most).store;
            k in done.operations && Ran(inbox, s, k, limit, most, WithStatus(done, k, Succeeded))
  {
    var claimed := WithStatus(s, k, Running);
    StatusKeeps(s, inbox, k, Running);
    assert Startable(claimed, inbox, k);
    assert Continuation(k) != k by { assert Depth(Continuation(k)) == Depth(k) + 1; }
    FanOutExactly(claimed, inbox, k, limit, most);
    Completed(s, inbox, k, limit, most, FanOut(claimed, inbox, k, limit, most).store);
  }

  lemma Completed(s: Store, inbox: seq<nat>, k: Key, limit: nat, most: nat, done: Store)
    requires k in s.operations && s.operations[k].email.None? && FannedOut(inbox, WithStatus(s, k, Running), k, limit, most, done)
    requires Drainable(WithStatus(s, k, Running), inbox) == Drainable(s, inbox)
    ensures k in done.operations && Ran(inbox, s, k, limit, most, WithStatus(done, k, Succeeded))
  {
    var before, after := Drainable(s, inbox), Drainable(done, inbox);
    CompletedRows(s.operations, k, done.operations, before - after, limit, |before| > most * limit);
    StatusKeeps(done, inbox, k, Succeeded);
  }

  lemma CompletedRows(operations: map<Key, Row>, k: Key, done: map<Key, Row>, taken: set<nat>, limit: nat, continues: bool)
    requires k in operations && done == WithRows(operations[k := operations[k].(status := Running)], k, taken, limit, continues)
    ensures k in done && done[k].email == operations[k].email
    ensures done[k := done[k].(status := Succeeded)] == RowsAfter(operations, k, taken, limit, continues)
  {
    RowsCommute(operations, k, operations[k].(status := Running), taken, limit, continues);
  }

  /** An execution that runs does what a first execution does, and readies the next one. */
  lemma ExecutionRan(s: Store, inbox: seq<nat>, key: Key, limit: nat, most: nat, n: nat)
    requires limit >= 1 && Ongoing(s, inbox, key, limit, n) && Runs(s, key, n)
    ensures Ran(inbox, s, KeyAt(key, n), limit, most, Execution(s, inbox, key, most, n))
    ensures Ongoing(Execution(s, inbox, key, most, n), inbox, key, limit, n + 1)
  {
    assert UntouchedAt(s, key, n);
    RunRan(s, inbox, KeyAt(key, n), limit, most);
    var s' := Execution(s, inbox, key, most, n);
    var taken := Drainable(s, inbox) - Drainable(s', inbox);
    RowsUntouched(s, s', key, n, taken, limit, |Drainable(s, inbox)| > most * limit);
    LeftBehind(Drainable(s, inbox), Drainable(s', inbox), most * limit);
  }

  /** Without a queued row nothing was left, and nothing is queued any more. */
  lemma ExecutionIdles(s: Store, inbox: seq<nat>, key: Key, limit: nat, n: nat)
    requires Ongoing(s, inbox, key, limit, n) && !Runs(s, key, n)
    ensures Drainable(s, inbox) == {} && Ongoing(s, inbox, key, limit, n + 1)
  {
    assert UntouchedAt(s, key, n);
  }

  /** One execution, run or not: what is left, and the children it made. */
  ghost predicate Executed(inbox: seq<nat>, s: Store, s': Store, key: Key, size: nat) {
    var before, after := Drainable(s, inbox), Drainable(s', inbox);
    after <= before && |after| == |before| - Min(|before|, size) && Grows(s, s', key, before - after)
  }

  lemma ExecutionStep(s: Store, inbox: seq<nat>, key: Key, limit: nat, most: nat, n: nat)
    requires limit >= 1 && Ongoing(s, inbox, key, limit, n)
    ensures Ongoing(Execution(s, inbox, key, most, n), inbox, key, limit, n + 1)
    ensures Executed(inbox, s, Execution(s, inbox, key, most, n), KeyAt(key, n), most * limit)
  {
    if Runs(s, key, n) {
      ExecutionRan(s, inbox, key, limit, most, n);
      RanGrows(inbox, s, KeyAt(key, n), limit, most, Execution(s, inbox, key, most, n));
    } else {
      ExecutionIdles(s, inbox, key, limit, n);
    }
  }

  ghost predicate StepHolds(execute: Execute, s: Store, inbox: seq<nat>, key: Key, limit: nat, i: nat, size: nat) {
    Ongoing(s, inbox, key, limit, i) ==>
      Ongoing(execute(s, i), inbox, key, limit, i + 1) && Executed(inbox, s, execute(s, i), KeyAt(key, i), size)
  }

  ghost predicate Steady(execute: Execute, inbox: seq<nat>, key: Key, limit: nat, size: nat) {
    forall s, i: nat :: StepHolds(execute, s, inbox, key, limit, i, size)
  }

  lemma FanOutsSteady(inbox: seq<nat>, key: Key, limit: nat, most: nat)
    requires limit >= 1
    ensures Steady(FanOuts(inbox, key, most), inbox, key, limit, most * limit)
  {
    forall s, i: nat ensures StepHolds(FanOuts(inbox, key, most), s, inbox, key, limit, i, most * limit) {
      if Ongoing(s, inbox, key, limit, i) { ExecutionStep(s, inbox, key, limit, most, i); }
    }
  }

  function LeftAfter(d: nat, size: nat, i: nat): nat {
    if i == 0 then d else LeftAfter(d, size, i - 1) - Min(LeftAfter(d, size, i - 1), size)
  }

  lemma {:induction false} LeftAfterMany(d: nat, size: nat, i: nat)
    ensures LeftAfter(d, size, i) == if d <= i * size then 0 else d - i * size
  {
    if i > 0 {
      LeftAfterMany(d, size, i - 1);
      assert i * size == (i - 1) * size + size;
    }
  }

  /** What holds after `n` executions from `s`. */
  ghost predicate ChainAt(inbox: seq<nat>, s: Store, s': Store, key: Key, limit: nat, size: nat, n: nat) {
    && Ongoing(s', inbox, key, limit, n) && Drainable(s', inbox) <= Drainable(s, inbox)
    && |Drainable(s', inbox)| == LeftAfter(|Drainable(s, inbox)|, size, n)
  }

  lemma {:induction false} ChainHolds(execute: Execute, s: Store, inbox: seq<nat>, key: Key, limit: nat, size: nat, n: nat)
    requires Steady(execute, inbox, key, limit, size) && Ongoing(s, inbox, key, limit, 0)
    ensures ChainAt(inbox, s, Iterate(execute, s, n), key, limit, size, n)
  {
    if n > 0 {
      ChainHolds(execute, s, inbox, key, limit, size, n - 1);
      SteadyAt(execute, Iterate(execute, s, n - 1), inbox, key, limit, n - 1, size);
      ChainMoves(execute, inbox, s, Iterate(execute, s, n - 1), key, limit, size, n - 1);
    } else {
      assert LeftAfter(|Drainable(s, inbox)|, size, 0) == |Drainable(s, inbox)|;
    }
  }

  lemma SteadyAt(execute: Execute, s: Store, inbox: seq<nat>, key: Key, limit: nat, i: nat, size: nat)
    requires Steady(execute, inbox, key, limit, size)
    ensures StepHolds(execute, s, inbox, key, limit, i, size)
  {
  }

  lemma ChainMoves(execute: Execute, inbox: seq<nat>, s: Store, before: Store, key: Key, limit: nat, size: nat, i: nat)
    requires ChainAt(inbox, s, before, key, limit, size, i) && StepHolds(execute, before, inbox, key, limit, i, size)
    ensures ChainAt(inbox, s, execute(before, i), key, limit, size, i + 1)
  {
    ChainGrows(inbox, s, before, execute(before, i), key, limit, size, i);
  }

  lemma ChainGrows(inbox: seq<nat>, s: Store, before: Store, s': Store, key: Key, limit: nat, size: nat, i: nat)
    requires ChainAt(inbox, s, before, key, limit, size, i) && Ongoing(s', inbox, key, limit, i + 1)
    requires Executed(inbox, before, s', KeyAt(key, i), size)
    ensures ChainAt(inbox, s, s', key, limit, size, i + 1)
  {
    assert LeftAfter(|Drainable(s, inbox)|, size, i + 1)
        == LeftAfter(|Drainable(s, inbox)|, size, i) - Min(LeftAfter(|Drainable(s, inbox)|, size, i), size);
  }

  /** An operation submitted over tidy mail: its row is queued, and it has left no trace yet. */
  ghost predicate Submission(s: Store, inbox: seq<nat>, key: Key, limit: nat) {
    limit >= 1 && NoDup(inbox) && Tidy(s, inbox) && Waits(s, key, 0, limit) && Untouched(s, key, 0)
  }

  /** From any tidy mail, its executions have drained all D emails after the n-th exactly when
      D <= n * most * limit; until then each queues the next, with the limit it found in its own row. */
  lemma ChainDrains(s: Store, inbox: seq<nat>, key: Key, limit: nat, most: nat, n: nat)
    requires Submission(s, inbox, key, limit)
    ensures Drainable(Executions(s, inbox, key, most, n), inbox) == {} <==> |Drainable(s, inbox)| <= n * (most * limit)
    ensures n > 0 ==> (Runs(Executions(s, inbox, key, most, n), key, n) <==> |Drainable(s, inbox)| > n * (most * limit))
    ensures |Drainable(s, inbox)| > n * (most * limit) ==>
              var s' := Executions(s, inbox, key, most, n);
              s'.operations[KeyAt(key, n)].status == Queued && s'.operations[KeyAt(key, n)].batchLimit == Some(limit)
  {
    FanOutsSteady(inbox, key, limit, most);
    ChainHolds(FanOuts(inbox, key, most), s, inbox, key, limit, most * limit, n);
    LeftAfterMany(|Drainable(s, inbox)|, most * limit, n);
    var left := Drainable(Executions(s, inbox, key, most, n), inbox);
    if |left| == 0 { assert left == {}; }
  }

  /** Execution `j` of the chain gave `e` a child. */
  predicate Covered(s: Store, key: Key, e: nat, j: nat) {
    Child(KeyAt(key, j), e) in s.operations
  }

  /** Execution `j` and no other gave `e` a child. */
  ghost predicate CoveredOnlyBy(s: Store, key: Key, e: nat, j: nat) {
    Covered(s, key, e, j) && forall k: nat :: Covered(s, key, e, k) ==> k == j
  }

  /** After `i` executions, `e` has a child of the chain exactly when it left the drainable mail,
      and then it has exactly one. */
  ghost predicate CoveredOnce(all: set<nat>, left: set<nat>, s: Store, key: Key, e: nat, i: nat) {
    if e in all - left then exists j: nat :: j < i && CoveredOnlyBy(s, key, e, j)
    else forall j: nat :: !Covered(s, key, e, j)
  }

  /** The new children are those of `key` for `taken`. */
  ghost predicate Grows(s: Store, s': Store, key: Key, taken: set<nat>) {
    forall child: Key :: child.Child? ==>
      (child in s'.operations <==> child in s.operations || (child.parent == key && child.email in taken))
  }

  lemma RanGrows(inbox: seq<nat>, s: Store, key: Key, limit: nat, most: nat, s': Store)
    requires Ran(inbox, s, key, limit, most, s')
    ensures Grows(s, s', key, Drainable(s, inbox) - Drainable(s', inbox))
  {
    RowsGrow(s, s', key, Drainable(s, inbox) - Drainable(s', inbox), limit, |Drainable(s, inbox)| > most * limit);
  }

  lemma RowsGrow(s: Store, s': Store, key: Key, taken: set<nat>, limit: nat, continues: bool)
    requires key in s.operations && s'.operations == RowsAfter(s.operations, key, taken, limit, continues)
    ensures Grows(s, s', key, taken)
  {
  }

  /** `left` and `left'` are the drainable mail before and after a step that took the difference. */
  ghost predicate Steps(all: set<nat>, left: set<nat>, left': set<nat>, s: Store, s': Store, key: Key) {
    Grows(s, s', key, left - left') && left' <= left <= all
  }

  lemma CoverStep(all: set<nat>, left: set<nat>, left': set<nat>, s: Store, s': Store, key: Key, i: nat, e: nat)
    requires Steps(all, left, left', s, s', KeyAt(key, i))
    requires CoveredOnce(all, left, s, key, e, i)
    ensures CoveredOnce(all, left', s', key, e, i + 1)
  {
    forall j: nat ensures Covered(s', key, e, j) <==> Covered(s, key, e, j) || (j == i && e in left - left') {
      assert Child(KeyAt(key, j), e).Child?;
      KeyDepth(key, i);
      KeyDepth(key, j);
    }
    if e in left - left' {
      assert CoveredOnlyBy(s', key, e, i);
    } else if e in all - left {
      var j: nat :| j < i && CoveredOnlyBy(s, key, e, j);
      assert CoveredOnlyBy(s', key, e, j);
    }
  }

  lemma UncoveredYet(s: Store, inbox: seq<nat>, key: Key, e: nat)
    requires Untouched(s, key, 0)
    ensures CoveredOnce(Drainable(s, inbox), Drainable(s, inbox), s, key, e, 0)
  {
    forall j: nat ensures !Covered(s, key, e, j) {
      assert UntouchedAt(s, key, j);
    }
  }

  /** A property of the store before execution `i`. */
  type Claim = (Store, nat) -> bool

  ghost predicate Kept(execute: Execute, claim: Claim, s: Store, i: nat) {
    claim(s, i) ==> claim(execute(s, i), i + 1)
  }

  lemma {:induction false} ClaimHolds(execute: Execute, claim: Claim, s: Store, n: nat)
    requires claim(s, 0) && forall t, i: nat :: Kept(execute, claim, t, i)
    ensures claim(Iterate(execute, s, n), n)
  {
    if n > 0 {
      ClaimHolds(execute, claim, s, n - 1);
      assert Kept(execute, claim, Iterate(execute, s, n - 1), n - 1);
    }
  }

  ghost predicate CoveredAt(all: set<nat>, inbox: seq<nat>, key: Key, limit: nat, e: nat, s: Store, i: nat) {
    Ongoing(s, inbox, key, limit, i) && Drainable(s, inbox) <= all && CoveredOnce(all, Drainable(s, inbox), s, key, e, i)
  }

  lemma CoveredKept(execute: Execute, inbox: seq<nat>, key: Key, limit: nat, size: nat, all: set<nat>, e: nat, s: Store, i: nat)
    requires StepHolds(execute, s, inbox, key, limit, i, size) && CoveredAt(all, inbox, key, limit, e, s, i)
    ensures CoveredAt(all, inbox, key, limit, e, execute(s, i), i + 1)
  {
    CoversNext(all, s, execute(s, i), inbox, key, size, i, e);
  }

  lemma ChainCoversAll(execute: Execute, s: Store, inbox: seq<nat>, key: Key, limit: nat, size: nat, n: nat, e: nat)
    requires Steady(execute, inbox, key, limit, size) && Ongoing(s, inbox, key, limit, 0)
    ensures CoveredAt(Drainable(s, inbox), inbox, key, limit, e, Iterate(execute, s, n), n)
  {
    var all := Drainable(s, inbox);
    var claim: Claim := (t: Store, i: nat) => CoveredAt(all, inbox, key, limit, e, t, i);
    UncoveredYet(s, inbox, key, e);
    forall t, i: nat ensures Kept(execute, claim, t, i) {
      assert StepHolds(execute, t, inbox, key, limit, i, size);
      if CoveredAt(all, inbox, key, limit, e, t, i) { CoveredKept(execute, inbox, key, limit, size, all, e, t, i); }
    }
    ClaimHolds(execute, claim, s, n);
  }

  lemma CoversNext(all: set<nat>, s: Store, s': Store, inbox: seq<nat>, key: Key, size: nat, n: nat, e: nat)
    requires Drainable(s, inbox) <= all && Executed(inbox, s, s', KeyAt(key, n), size)
    requires CoveredOnce(all, Drainable(s, inbox), s, key, e, n)
    ensures CoveredOnce(all, Drainable(s', inbox), s', key, e, n + 1)
  {
    CoverStep(all, Drainable(s, inbox), Drainable(s', inbox), s, s', key, n, e);
  }

  lemma ChainCovers(s: Store, inbox: seq<nat>, key: Key, limit: nat, most: nat, n: nat, e: nat)
    requires Submission(s, inbox, key, limit)
    ensures var end := Executions(s, inbox, key, most, n);
            CoveredOnce(Drainable(s, inbox), Drainable(end, inbox), end, key, e, n)
  {
    FanOutsSteady(inbox, key, limit, most);
    ChainCoversAll(FanOuts(inbox, key, most), s, inbox, key, limit, most * limit, n, e);
  }

  // ---------- Untidy mail ----------

  lemma {:induction false} CopiesTake(e: nat, n: nat, k: nat)
    requires k <= n
    ensures |Copies(e, n)| == n && Copies(e, n)[..k] == Copies(e, k)
  {
    if k < n {
      CopiesTake(e, n - 1, k);
      assert Copies(e, n)[..n - 1] == Copies(e, n - 1);
    } else if n > 0 {
      CopiesTake(e, n - 1, n - 1);
    }
  }

  lemma {:induction false} CopiesDedupe(e: nat, n: nat)
    requires n > 0
    ensures Dedupe(Copies(e, n)) == [e]
  {
    CopiesTake(e, n, n - 1);
    assert Copies(e, n)[..|Copies(e, n)| - 1] == Copies(e, n - 1);
    if n > 1 {
      CopiesDedupe(e, n - 1);
      assert Copies(e, n - 1)[n - 2] == e by { CopiesTake(e, n - 1, n - 2); }
    }
  }

  lemma {:induction false} FirstRows(s: Store, ids: seq<nat>)
    requires ids != [] && Orphan(s, ids[0])
    ensures Copies(ids[0], CountRuns(s.runs, ids[0])) <= OrphanRows(s, ids)
  {
    if |ids| > 1 {
      FirstRows(s, ids[..|ids| - 1]);
    } else {
      assert ids[..0] == [];
    }
  }

  /** An orphan with as many runs as the limit hides the orphans after it from the listing. */
  lemma CrowdedListing(s: Store, inbox: seq<nat>, limit: nat)
    requires limit > 0 && inbox != [] && Orphan(s, inbox[0]) && CountRuns(s.runs, inbox[0]) >= limit
    ensures ListedOrphans(s, inbox, limit) == [inbox[0]]
  {
    var n := CountRuns(s.runs, inbox[0]);
    FirstRows(s, inbox);
    CopiesTake(inbox[0], n, limit);
    assert Limit(OrphanRows(s, inbox), limit) == Copies(inbox[0], n)[..limit];
    CopiesDedupe(inbox[0], limit);
  }

  /** So mail that is not tidy can make a batch look short: with nothing else waiting, the loop
      queues that one email and stops, without a continuation, though other orphans are left. */
  lemma UntidyStopsEarly(s: Store, inbox: seq<nat>, key: Key, limit: nat, most: nat, left: nat)
    requires most > 1 && limit > 1 && inbox != [] && NoDup(inbox) && WaitingSet(s, inbox) == {}
    requires Orphan(s, inbox[0]) && CountRuns(s.runs, inbox[0]) >= limit && !Busy(s, inbox[0]) && Child(key, inbox[0]) !in s.operations
    requires left in inbox && left != inbox[0] && Orphan(s, left)
    ensures var r := FanOut(s, inbox, key, limit, most);
            r.queued == 1 && !r.continued && left in Drainable(r.store, inbox)
  {
    var e, ready := inbox[0], Ready(s, inbox, limit);
    CrowdedReady(s, inbox, limit, left);
    OnlySelected(inbox, e);
    assert Batch(s, inbox, limit) == [e];
    ChildBusies(ready, key, e, left);
    EnqueueOne(ready, key, e);
    assert DrainLoop(s, inbox, key, limit, most) == Loop(WithChild(ready, key, e), 1, 1);
  }

  lemma CrowdedReady(s: Store, inbox: seq<nat>, limit: nat, left: nat)
    requires limit > 1 && inbox != [] && NoDup(inbox) && WaitingSet(s, inbox) == {}
    requires Orphan(s, inbox[0]) && CountRuns(s.runs, inbox[0]) >= limit && !Busy(s, inbox[0])
    requires left in inbox && left != inbox[0] && Orphan(s, left)
    ensures Ready(s, inbox, limit).operations == s.operations && Orphan(Ready(s, inbox, limit), left)
    ensures WaitingSet(Ready(s, inbox, limit), inbox) == {inbox[0]}
  {
    var e, ready := inbox[0], Ready(s, inbox, limit);
    CrowdedListing(s, inbox, limit);
    ReclaimOne(s, e);
    RunClosed(s.runs, LatestRun(s.runs, e).value, e, left);
    assert forall f: nat :: Busy(ready, f) == Busy(s, f);
  }

  lemma ReclaimOne(s: Store, e: nat)
    ensures ReclaimAll(s, [e]) == Reclaimed(s, e)
  {
    var ids := [e];
    assert ids[..0] == [] && ReclaimAll(s, ids[..0]) == s;
  }

  lemma EnqueueOne(s: Store, key: Key, e: nat)
    requires Child(key, e) !in s.operations
    ensures EnqueueAll(s, key, [e]) == (WithChild(s, key, e), 1)
  {
    var ids := [e];
    assert ids[..0] == [] && EnqueueAll(s, key, ids[..0]) == (s, 0);
  }

  lemma OnlySelected(ids: seq<nat>, e: nat)
    requires NoDup(ids) && e in ids
    ensures Select(ids, {e}) == [e]
  {
    SelectExactly(ids, {e});
    NoDupCount(Select(ids, {e}), {e});
    assert e in Select(ids, {e});
  }

  // ---------- The store and the executor as programs ----------

  /** What the loop has still to do from `now` in `rest` batches leads to `end`. */
  ghost predicate OnCourse(end: Loop, now: Store, inbox: seq<nat>, key: Key, limit: nat, rest: nat, queued: nat, batches: nat) {
    end == AddTo(queued, batches, DrainLoop(now, inbox, key, limit, rest))
  }

  /** One turn keeps the course; a short or empty batch ends it. */
  lemma TurnOnCourse(end: Loop, now: Store, inbox: seq<nat>, key: Key, limit: nat, rest: nat, queued: nat, batches: nat,
                     ready: Store, ids: seq<nat>, next: Store, n: nat)
    requires OnCourse(end, now, inbox, key, limit, rest, queued, batches) && rest > 0
    requires ready == Ready(now, inbox, limit) && ids == ListedWaiting(ready, inbox, limit) && EnqueueAll(ready, key, ids) == (next, n)
    ensures ids == [] ==> end == Loop(ready, queued, batches)
    ensures 0 < |ids| < limit ==> end == Loop(next, queued + n, batches + 1)
    ensures ids != [] && |ids| >= limit ==> OnCourse(end, next, inbox, key, limit, rest - 1, queued + n, batches + 1)
  {
  }

  /** The operations store's side of the fan-out. */
  class FanOutStore {
    /** The account's emails in the order they were received. */
    const inbox: seq<nat>
    var emails: map<nat, EmailStatus>
    var runs: seq<RunRow>
    var operations: map<Key, Row>

    constructor (inbox: seq<nat>, s: Store)
      ensures this.inbox == inbox && Snapshot() == s
    {
      this.inbox := inbox;
      emails, runs, operations := s.emails, s.runs, s.operations;
    }

    function Snapshot(): Store
      reads this
    {
      Store(emails, runs, operations)
    }

    method ReclaimOrphaned(e: nat) returns (done: bool)
      modifies this`emails, this`runs
      ensures done == Orphan(old(Snapshot()), e) && Snapshot() == Reclaimed(old(Snapshot()), e)
    {
      if e !in emails || emails[e] != NeedsReview { return false; }
      var run := LatestRun(runs, e);
      if run.None? { return false; }
      runs := runs[run.value := runs[run.value].(awaiting := false)];
      emails := emails[e := Pending];
      done := true;
    }

    /** Inserts a queued child unless the key is taken. */
    method CreateChild(key: Key, e: nat) returns (row: Row, created: bool)
      modifies this`operations
      ensures Snapshot() == WithChild(old(Snapshot()), key, e)
      ensures row == operations[Child(key, e)] && created == (Child(key, e) !in old(operations))
    {
      created := Child(key, e) !in operations;
      if created { operations := operations[Child(key, e) := Row(Queued, Some(e), None, Some(key))]; }
      row := operations[Child(key, e)];
    }

    method CreateContinuation(key: Key, limit: nat) returns (row: Row, created: bool)
      modifies this`operations
      ensures operations == if created then old(operations)[Continuation(key) := ContinuationRow(limit)] else old(operations)
      ensures created == (Continuation(key) !in old(operations)) && row == operations[Continuation(key)]
    {
      created := Continuation(key) !in operations;
      if created { operations := operations[Continuation(key) := Row(Queued, None, Some(limit), None)]; }
      row := operations[Continuation(key)];
    }
  }

  /** The operation executor's side of the fan-out. */
  class FanOutExecutor {
    const store: FanOutStore
    const maxBatches: nat

    constructor (store: FanOutStore)
      ensures this.store == store && maxBatches == 50
    {
      this.store := store;
      maxBatches := 50;
    }

    method NextPendingBatch(limit: nat) returns (ids: seq<nat>)
      modifies store`emails, store`runs
      ensures store.Snapshot() == Ready(old(store.Snapshot()), store.inbox, limit)
      ensures ids == ListedWaiting(store.Snapshot(), store.inbox, limit)
    {
      ghost var before := store.Snapshot();
      var orphans := ListedOrphans(store.Snapshot(), store.inbox, limit);
      for i := 0 to |orphans|
        invariant store.Snapshot() == ReclaimAll(before, orphans[..i])
      {
        assert orphans[..i + 1][..i] == orphans[..i];
        var done := store.ReclaimOrphaned(orphans[i]);
      }
      assert orphans[..|orphans|] == orphans;
      ids := ListedWaiting(store.Snapshot(), store.inbox, limit);
    }

    method EnqueueChildren(key: Key, ids: seq<nat>) returns (queued: nat)
      modifies store`operations
      ensures (store.Snapshot(), queued) == EnqueueAll(old(store.Snapshot()), key, ids)
    {
      ghost var before := store.Snapshot();
      queued := 0;
      for i := 0 to |ids|
        invariant (store.Snapshot(), queued) == EnqueueAll(before, key, ids[..i])
      {
        assert ids[..i + 1][..i] == ids[..i];
        var row, created := store.CreateChild(key, ids[i]);
        if row.status == Queued { queued := queued + 1; }
      }
      assert ids[..|ids|] == ids;
    }

    /** One batch; `last` when it was empty or short. */
    method DrainBatch(key: Key, limit: nat, ghost end: Loop, ghost rest: nat, before: nat, count: nat)
      returns (queued: nat, batches: nat, last: bool)
      requires rest > 0 && OnCourse(end, store.Snapshot(), store.inbox, key, limit, rest, before, count)
      modifies store
      ensures batches <= count + 1
      ensures OnCourse(end, store.Snapshot(), store.inbox, key, limit, if last then 0 else rest - 1, queued, batches)
      ensures !last ==> batches == count + 1
    {
      ghost var now := store.Snapshot();
      var ids := NextPendingBatch(limit);
      ghost var ready := store.Snapshot();
      ghost var (next, n) := EnqueueAll(ready, key, ids);
      TurnOnCourse(end, now, store.inbox, key, limit, rest, before, count, ready, ids, next, n);
      if ids == [] { return before, count, true; }
      var more := EnqueueChildren(key, ids);
      assert store.Snapshot() == next && more == n;
      queued, batches, last := before + more, count + 1, |ids| < limit;
    }

    method DrainBatches(key: Key, limit: nat) returns (queued: nat, batches: nat)
      modifies store
      ensures Loop(store.Snapshot(), queued, batches) == DrainLoop(old(store.Snapshot()), store.inbox, key, limit, maxBatches)
    {
      ghost var end := DrainLoop(store.Snapshot(), store.inbox, key, limit, maxBatches);
      ghost var rest := maxBatches;
      queued, batches := 0, 0;
      var last := false;
      while batches < maxBatches && !last
        invariant last ==> rest == 0
        invariant !last ==> batches + rest == maxBatches
        invariant OnCourse(end, store.Snapshot(), store.inbox, key, limit, rest, queued, batches)
        decreases maxBatches - batches, !last
      {
        queued, batches, last := DrainBatch(key, limit, end, rest, queued, batches);
        rest := if last then 0 else rest - 1;
      }
    }

    method FanOutPending(key: Key, limit: nat) returns (queued: nat, already: nat, continued: bool)
      requires 1 <= limit <= 100
      modifies store
      ensures FanOutResult(store.Snapshot(), queued, continued) == FanOut(old(store.Snapshot()), store.inbox, key, limit, maxBatches)
      ensures already == |set k | k in old(store.operations) && old(store.operations)[k].parent == Some(key)|
    {
      already := |set k | k in store.operations && store.operations[k].parent == Some(key)|;
      var batches;
      queued, batches := DrainBatches(key, limit);
      continued := false;
      if batches >= maxBatches && AnyListed(store.Snapshot(), store.inbox) {
        var row, created := store.CreateContinuation(key, limit);
        continued := created || row.status == Queued;
      }
    }
  }
}
