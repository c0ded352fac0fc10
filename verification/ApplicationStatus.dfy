/** The monotone status rule of `domain/processing.py` and what it makes of any sequence of emails. */
module ApplicationStatus {

  datatype Status =
    | Unknown | Applied | AssessmentPending | AssessmentCompleted
    | InterviewPending | InterviewScheduled | InterviewCompleted
    | Offer | Rejected | Withdrawn

  predicate Decision(s: Status) {
    s == Offer || s == Rejected
  }

  predicate Terminal(s: Status) {
    Decision(s) || s == Withdrawn
  }

  /** The ordinary progress order; -1 for statuses outside it. */
  function Rank(s: Status): int {
    match s
    case Unknown => 0
    case Applied => 1
    case AssessmentPending => 2
    case AssessmentCompleted => 3
    case InterviewPending => 4
    case InterviewScheduled => 5
    case InterviewCompleted => 6
    case _ => -1
  }

  function Next(current: Status, desired: Status): Status {
    if desired == Unknown || current == desired then current
    else if current == Withdrawn then current
    else if Decision(current) then current
    else if Decision(desired) then desired
    else if Rank(desired) >= Rank(current) then desired
    else current
  }

  /** Progress with the decisions on top. */
  function Height(s: Status): nat {
    if Terminal(s) then 7 else Rank(s)
  }

  /** `later` may be the status of an application some commits after `earlier`. */
  predicate Precedes(earlier: Status, later: Status) {
    || earlier == later
    || later == Withdrawn
    || (!Terminal(earlier) && (Decision(later) || Rank(earlier) <= Rank(later)))
  }

  lemma NextRises(current: Status, desired: Status)
    ensures Precedes(current, Next(current, desired))
    ensures Next(current, desired) != current ==> Height(current) < Height(Next(current, desired))
    ensures Next(Next(current, desired), desired) == Next(current, desired)
  {
  }

  /** A target computed against an older status commits like the desired status itself. */
  lemma StaleTarget(planned: Status, now: Status, desired: Status)
    requires Precedes(planned, now)
    ensures Next(now, Next(planned, desired)) == Next(now, desired)
  {
  }

  function Fold(start: Status, desired: seq<Status>): Status {
    if desired == [] then start
    else Next(Fold(start, desired[..|desired| - 1]), desired[|desired| - 1])
  }

  /** The first decision committed stands for ever. */
  lemma {:induction false} FirstDecisionStands(desired: seq<Status>, i: nat)
    requires i < |desired| && Decision(desired[i])
    requires forall k :: 0 <= k < i ==> !Decision(desired[k])
    requires Withdrawn !in desired
    ensures Fold(Unknown, desired) == desired[i]
  {
    var front := desired[..|desired| - 1];
    if i < |front| {
      FirstDecisionStands(front, i);
    } else {
      HighestRankStands(front);
    }
  }

  /** Without a decision the fold is the highest-ranked status seen. */
  lemma {:induction false} HighestRankStands(desired: seq<Status>)
    requires forall k :: 0 <= k < |desired| ==> !Terminal(desired[k])
    ensures Fold(Unknown, desired) == Unknown || Fold(Unknown, desired) in desired
    ensures !Terminal(Fold(Unknown, desired))
    ensures forall k :: 0 <= k < |desired| ==> Rank(desired[k]) <= Rank(Fold(Unknown, desired))
  {
    if desired != [] {
      var front := desired[..|desired| - 1];
      HighestRankStands(front);
      forall k | 0 <= k < |desired| ensures Rank(desired[k]) <= Rank(Fold(Unknown, desired)) {
        if k < |front| { assert front[k] == desired[k]; }
      }
    }
  }

  /** Without a decision neither order nor repetition of the emails matters. */
  lemma OrderIrrelevant(a: seq<Status>, b: seq<Status>)
    requires forall k :: 0 <= k < |a| ==> !Terminal(a[k])
    requires forall s :: s in a <==> s in b
    ensures Fold(Unknown, a) == Fold(Unknown, b)
  {
    forall k | 0 <= k < |b| ensures !Terminal(b[k]) {
      assert b[k] in a;
    }
    HighestRankStands(a);
    HighestRankStands(b);
    var x, y := Fold(Unknown, a), Fold(Unknown, b);
    if x in b { var k :| 0 <= k < |b| && b[k] == x; assert Rank(b[k]) <= Rank(y); }
    if y in a { var k :| 0 <= k < |a| && a[k] == y; assert Rank(a[k]) <= Rank(x); }
  }
}
