/** Laws of the fan-out that hold for any mail: which emails it is about, what it writes, which come
    first, and what a redelivered execution does. */
module PendingDrainLaws {
  import opened Wrappers
  import opened Statuses
  import opened PendingDrain

  // ---------- Which emails ----------

  /** Some process-email operation of this email is queued or running. */
  ghost predicate InWork(s: Store, e: nat) {
    exists k :: k in s.operations && s.operations[k].email == Some(e) && s.operations[k].status in {Queued, Running}
  }

  /** Some run of this email waits for a review that is not open. */
  predicate ReviewLost(s: Store, e: nat) {
    exists i :: 0 <= i < |s.runs| && s.runs[i].email == e && s.runs[i].awaiting && !s.runs[i].openReview
  }

  lemma {:induction false} CountedExactly(runs: seq<RunRow>, e: nat)
    ensures CountRuns(runs, e) > 0 <==> exists i :: 0 <= i < |runs| && Orphaned(runs[i], e)
  {
    if runs != [] {
      var front, last := runs[..|runs| - 1], runs[|runs| - 1];
      CountedExactly(front, e);
      if CountRuns(front, e) > 0 {
        var i :| 0 <= i < |front| && Orphaned(front[i], e);
        assert Orphaned(runs[i], e);
      } else if Orphaned(last, e) {
        assert Orphaned(runs[|runs| - 1], e);
      } else {
        forall i | 0 <= i < |runs| ensures !Orphaned(runs[i], e) {
          if i < |front| { assert !Orphaned(front[i], e); }
        }
      }
    }
  }

  lemma OrphanExactly(s: Store, e: nat)
    ensures Orphan(s, e) <==> e in s.emails && s.emails[e] == NeedsReview && ReviewLost(s, e)
  {
    CountedExactly(s.runs, e);
    if ReviewLost(s, e) {
      var i :| 0 <= i < |s.runs| && s.runs[i].email == e && s.runs[i].awaiting && !s.runs[i].openReview;
      assert Orphaned(s.runs[i], e);
    }
  }

  /** Drainable is the pending mail with no operation in work, and the mail whose review was lost. */
  lemma DrainableExactly(s: Store, inbox: seq<nat>, e: nat)
    ensures e in Drainable(s, inbox) <==>
              && e in inbox && e in s.emails
              && ((s.emails[e] == Pending && !InWork(s, e)) || (s.emails[e] == NeedsReview && ReviewLost(s, e)))
  {
    OrphanExactly(s, e);
    assert InWork(s, e) <==> Busy(s, e);
  }

  // ---------- What is written ----------

  /** Reclaiming an email whose review was lost makes it pending and fails its lost run that started last;
      it does nothing to any other email. */
  lemma ReclaimExactly(s: Store, e: nat)
    ensures var s' := Reclaimed(s, e);
            if e in s.emails && s.emails[e] == NeedsReview && ReviewLost(s, e) then
              && s'.emails == s.emails[e := Pending] && s'.operations == s.operations
              && exists run :: 0 <= run < |s.runs| && Orphaned(s.runs[run], e) && s'.runs == s.runs[run := s.runs[run].(awaiting := false)]
                               && forall i :: 0 <= i < |s.runs| && Orphaned(s.runs[i], e) ==> s.runs[i].startedAt <= s.runs[run].startedAt
            else s' == s
  {
    OrphanExactly(s, e);
  }

  /** Old rows stay as they are; new ones are queued children of `key`. */
  ghost predicate OnlyChildren(before: map<Key, Row>, after: map<Key, Row>, key: Key) {
    && (forall k :: k in before ==> k in after && after[k] == before[k])
    && (forall k :: k in after && k !in before ==> k.Child? && k.parent == key && after[k] == Row(Queued, Some(k.email), None, Some(key)))
  }

  lemma {:induction false} ReclaimsNoRow(s: Store, ids: seq<nat>)
    ensures ReclaimAll(s, ids).operations == s.operations
  {
    if ids != [] { ReclaimsNoRow(s, ids[..|ids| - 1]); }
  }

  lemma {:induction false} EnqueuesChildren(s: Store, key: Key, ids: seq<nat>)
    ensures OnlyChildren(s.operations, EnqueueAll(s, key, ids).0.operations, key)
    ensures forall e :: e in ids ==> Child(key, e) in EnqueueAll(s, key, ids).0.operations
  {
    if ids != [] {
      EnqueuesChildren(s, key, ids[..|ids| - 1]);
      assert ids == ids[..|ids| - 1] + [ids[|ids| - 1]];
    }
  }

  lemma {:induction false} DrainsChildren(s: Store, inbox: seq<nat>, key: Key, limit: nat, most: nat)
    ensures OnlyChildren(s.operations, DrainLoop(s, inbox, key, limit, most).store.operations, key)
    decreases most
  {
    if most > 0 {
      ReclaimsNoRow(s, ListedOrphans(s, inbox, limit));
      EnqueuesChildren(Ready(s, inbox, limit), key, Batch(s, inbox, limit));
      DrainsChildren(Turn(s, inbox, key, limit), inbox, key, limit, most - 1);
      ChildrenOnChildren(s, inbox, key, limit, most);
    }
  }

  lemma ChildrenOnChildren(s: Store, inbox: seq<nat>, key: Key, limit: nat, most: nat)
    requires most > 0 && Ready(s, inbox, limit).operations == s.operations
    requires OnlyChildren(s.operations, Turn(s, inbox, key, limit).operations, key)
    requires OnlyChildren(Turn(s, inbox, key, limit).operations, DrainLoop(Turn(s, inbox, key, limit), inbox, key, limit, most - 1).store.operations, key)
    ensures OnlyChildren(s.operations, DrainLoop(s, inbox, key, limit, most).store.operations, key)
  {
  }

  /** Over any store an execution changes no existing row; it adds queued children of its own operation
      and at most one continuation, with its own limit. */
  lemma FanOutAdds(s: Store, inbox: seq<nat>, key: Key, limit: nat, most: nat)
    ensures var r := FanOut(s, inbox, key, limit, most);
            && (forall k :: k in s.operations ==> k in r.store.operations && r.store.operations[k] == s.operations[k])
            && (forall k :: k in r.store.operations && k !in s.operations ==>
                              || (k.Child? && k.parent == key && r.store.operations[k] == Row(Queued, Some(k.email), None, Some(key)))
                              || (k == Continuation(key) && r.continued && r.store.operations[k] == Row(Queued, None, Some(limit), None)))
            && (r.continued ==> Continuation(key) in r.store.operations && r.store.operations[Continuation(key)].status == Queued)
  {
    DrainsChildren(s, inbox, key, limit, most);
  }

  /** Only a queued row with a batch limit is executed, and once: its row has succeeded then, and executing
      it again does nothing. */
  lemma ExecutedOnce(s: Store, inbox: seq<nat>, key: Key, most: nat, i: nat)
    ensures var k, s' := KeyAt(key, i), Execution(s, inbox, key, most, i);
            if k in s.operations && s.operations[k].status == Queued && s.operations[k].batchLimit.Some? then
              k in s'.operations && s'.operations[k] == s.operations[k].(status := Succeeded) && Execution(s', inbox, key, most, i) == s'
            else s' == s
  {
    var k := KeyAt(key, i);
    if Runs(s, key, i) { FanOutAdds(WithStatus(s, k, Running), inbox, k, s.operations[k].batchLimit.value, most); }
  }

  // ---------- Oldest first ----------

  lemma {:induction false} SelectPrefix(ids: seq<nat>, keep: set<nat>, j: nat)
    requires j <= |ids|
    ensures Select(ids[..j], keep) <= Select(ids, keep)
  {
    if j < |ids| {
      SelectPrefix(ids[..|ids| - 1], keep, j);
      assert ids[..|ids| - 1][..j] == ids[..j];
    } else {
      assert ids[..j] == ids;
    }
  }

  /** A batch takes the waiting mail in the order it was received. */
  lemma OldestFirst(s: Store, inbox: seq<nat>, limit: nat, i: nat, j: nat)
    requires NoDup(inbox) && i < j < |inbox| && inbox[i] in WaitingSet(s, inbox) && inbox[j] in ListedWaiting(s, inbox, limit)
    ensures inbox[i] in ListedWaiting(s, inbox, limit)
  {
    var keep := WaitingSet(s, inbox);
    var all, older := Select(inbox, keep), Select(inbox[..j], keep);
    SelectPrefix(inbox, keep, j);
    SelectPrefix(inbox, keep, j + 1);
    SelectExactly(inbox, keep);
    SelectExactly(inbox[..j], keep);
    assert inbox[..j][i] == inbox[i];
    assert inbox[..j + 1][..j] == inbox[..j];
    assert inbox[j] in keep by { assert inbox[j] in all; }
    assert Select(inbox[..j + 1], keep) == older + [inbox[j]];
    assert all[|older|] == inbox[j];
    var at :| 0 <= at < |ListedWaiting(s, inbox, limit)| && ListedWaiting(s, inbox, limit)[at] == inbox[j];
    assert all[at] == inbox[j];
    assert at == |older|;
    var k :| 0 <= k < |older| && older[k] == inbox[i];
    assert ListedWaiting(s, inbox, limit)[k] == all[k] == older[k];
  }

  // ---------- Redelivery ----------

  /** An execution cut off after any number of batches may start again: the mail it took has its children
      and is no longer drainable, and what is left has none. */
  lemma CutOffStartable(s: Store, inbox: seq<nat>, key: Key, limit: nat, done: nat)
    requires Startable(s, inbox, key) && Continuation(key) !in s.operations
    ensures var cut := DrainLoop(s, inbox, key, limit, done).store;
            Startable(cut, inbox, key) && Continuation(key) !in cut.operations
  {
    LoopTidy(s, inbox, key, limit, done);
    LoopRows(s, inbox, key, limit, done);
    DrainsChildren(s, inbox, key, limit, done);
  }

  lemma CutOffLeaves(s: Store, inbox: seq<nat>, key: Key, limit: nat, done: nat, taken: nat)
    requires limit >= 1 && Startable(s, inbox, key) && taken == done * limit
    ensures var cut := DrainLoop(s, inbox, key, limit, done).store;
            |Drainable(cut, inbox)| == |Drainable(s, inbox)| - Min(|Drainable(s, inbox)|, taken)
  {
    LoopCounts(s, inbox, key, limit, done);
    FullProduct(done, limit);
  }

  lemma FanOutCounts(s: Store, inbox: seq<nat>, key: Key, limit: nat, most: nat, size: nat, r: FanOutResult)
    requires limit >= 1 && Startable(s, inbox, key) && Continuation(key) !in s.operations && size == most * limit
    requires r == FanOut(s, inbox, key, limit, most)
    ensures r.queued == Min(|Drainable(s, inbox)|, size) && (r.continued <==> |Drainable(s, inbox)| > size)
  {
    FanOutExactly(s, inbox, key, limit, most);
  }

  /** So the redelivered execution queues exactly what was left, up to its own bound. */
  lemma RedeliveryTakesRest(s: Store, inbox: seq<nat>, key: Key, limit: nat, done: nat, most: nat, taken: nat, size: nat,
                            cut: Store, r: FanOutResult)
    requires limit >= 1 && Startable(s, inbox, key) && Continuation(key) !in s.operations
    requires taken == done * limit && size == most * limit
    requires cut == DrainLoop(s, inbox, key, limit, done).store && r == FanOut(cut, inbox, key, limit, most)
    ensures |Drainable(cut, inbox)| == |Drainable(s, inbox)| - Min(|Drainable(s, inbox)|, taken)
    ensures r.queued == Min(|Drainable(cut, inbox)|, size) && (r.continued <==> |Drainable(s, inbox)| > taken + size)
  {
    CutOffStartable(s, inbox, key, limit, done);
    CutOffLeaves(s, inbox, key, limit, done, taken);
    FanOutCounts(cut, inbox, key, limit, most, size, r);
    TwoParts(|Drainable(s, inbox)|, |Drainable(cut, inbox)|, taken, size);
  }

  lemma TwoParts(all: nat, left: nat, first: nat, second: nat)
    requires left == all - Min(all, first)
    ensures left > second <==> all > first + second
  {
  }
}
