/** Claiming, retrying and finishing one queued operation under leases that nothing fences. */
module OperationLease {
  import opened Wrappers
  import opened Statuses

  /** `email` is the source email of a process-email operation. */
  datatype Operation = Operation(status: OperationStatus, attempts: nat, lease: Option<int>, email: Option<nat>)

  /** How the claimed work ends: normally, refused (disabled, conflicting, another account's), or
      with any other exception. */
  datatype Ending = Success | Refused | Exception

  const LEASE_SECONDS := 1500
  const MAX_ATTEMPTS := 5

  function Max(a: nat, b: nat): nat {
    if a < b then b else a
  }

  /** A lease that expires exactly now still holds. */
  predicate Claimable(op: Operation, now: int) {
    op.status == Queued || (op.status == Running && op.lease.Some? && op.lease.value < now)
  }

  function Claimed(op: Operation, now: int): Operation {
    op.(status := Running, attempts := op.attempts + 1, lease := Some(now + LEASE_SECONDS))
  }

  /** The final write of a worker that saw `attempt`; it does not check who holds the row. */
  function Ended(op: Operation, attempt: nat, ending: Ending): Operation {
    op.(lease := None,
        status := match ending
                  case Success => Succeeded
                  case Refused => Failed
                  case Exception => if attempt < MAX_ATTEMPTS then Queued else Failed)
  }

  predicate Releases(attempt: nat, ending: Ending) {
    ending == Exception && attempt < MAX_ATTEMPTS
  }

  /** A row is claimable when it is queued, or running under a lease that has expired; a claim counts and
      leases it for 25 minutes. */
  lemma ClaimExactly(op: Operation, now: int)
    ensures Claimable(op, now) <==> op.status == Queued || (op.status == Running && op.lease.Some? && op.lease.value < now)
    ensures Claimed(op, now) == Operation(Running, op.attempts + 1, Some(now + 25 * 60), op.email)
  {
  }

  /** Success and refusal are final; an exception puts the row back into the queue up to the fourth attempt
      and fails it from the fifth on. */
  lemma EndExactly(op: Operation, attempt: nat, ending: Ending)
    ensures Ended(op, attempt, ending).attempts == op.attempts && Ended(op, attempt, ending).lease.None?
    ensures Ended(op, attempt, ending).status == (if ending == Success then Succeeded
                                                  else if ending == Exception && attempt <= 4 then Queued else Failed)
    ensures Ended(op, attempt, ending).email == op.email
  {
  }

  type Mail = map<nat, EmailStatus>

  /** Only mail that is in work or failed goes back to the waiting mail. */
  function ResetPending(mail: Mail, email: Option<nat>): Mail {
    if email.Some? && email.value in mail && mail[email.value] in {Processing, EmailFailed} then mail[email.value := Pending] else mail
  }

  function MarkedFailed(mail: Mail, email: Option<nat>): Mail {
    if email.Some? && email.value in mail then mail[email.value := EmailFailed] else mail
  }

  /** What an ending does to the mail: nothing unless it is an exception. */
  function MailAfter(mail: Mail, email: Option<nat>, attempt: nat, ending: Ending): Mail {
    if ending != Exception then mail
    else if attempt < MAX_ATTEMPTS then ResetPending(mail, email)
    else MarkedFailed(mail, email)
  }

  /** Only an exception touches the mail: a retry makes an email in work or failed pending again, and the
      last attempt marks it failed. */
  lemma MailExactly(mail: Mail, e: nat, attempt: nat, ending: Ending)
    requires e in mail
    ensures MailAfter(mail, Some(e), attempt, ending)
         == mail[e := if ending != Exception then mail[e]
                      else if attempt >= 5 then EmailFailed
                      else if mail[e] == Processing || mail[e] == EmailFailed then Pending else mail[e]]
  {
    assert mail[e := mail[e]] == mail;
  }

  // ---------- Interleavings ----------

  /** A live claim: the delivery count its message carried and the lease it got. */
  datatype Worker = Worker(delivery: nat, lease: int)

  /** Live workers are known by the attempt count their claim wrote; no two claims share one. */
  datatype System = System(op: Operation, mail: Mail, live: map<nat, Worker>, released: set<nat>, finished: nat, crashed: nat, clock: int)

  /** `Work` is any write a live worker's handler makes to the operation's email. */
  datatype Event =
    | Claim(now: int, delivery: nat)
    | Work(worker: nat, now: int, status: EmailStatus)
    | End(worker: nat, now: int, ending: Ending)
    | Crash(worker: nat)

  function Step(s: System, e: Event): System {
    match e
    case Claim(now, delivery) =>
      if !Claimable(s.op, now) then s.(clock := now)
      else
        var op := Claimed(s.op, now);
        s.(op := op, live := s.live[op.attempts := Worker(delivery, now + LEASE_SECONDS)], clock := now)
    case Work(k, now, status) =>
      if k !in s.live || s.op.email.None? then s.(clock := now)
      else s.(mail := s.mail[s.op.email.value := status], clock := now)
    case End(k, now, ending) =>
      if k !in s.live then s.(clock := now)
      else
        var attempt := Max(s.live[k].delivery, k);
        s.(op := Ended(s.op, attempt, ending), mail := MailAfter(s.mail, s.op.email, attempt, ending), live := s.live - {k}, clock := now,
           released := if Releases(attempt, ending) then s.released + {k} else s.released,
           finished := if Releases(attempt, ending) then s.finished else s.finished + 1)
    case Crash(k) =>
      if k !in s.live then s else s.(live := s.live - {k}, crashed := s.crashed + 1)
  }

  function Run(s: System, events: seq<Event>): System
    decreases |events|
  {
    if events == [] then s else Run(Step(s, events[0]), events[1..])
  }

  function Submitted(now: int, email: Option<nat>, mail: Mail): System {
    System(Operation(Queued, 0, None, email), mail, map[], {}, 0, 0, now)
  }

  /** Every claim is live, released, finished or crashed, and releases come from early attempts. */
  ghost predicate Accounted(s: System) {
    && (forall k :: k in s.live || k in s.released ==> 1 <= k <= s.op.attempts)
    && (forall k :: k in s.released ==> k < MAX_ATTEMPTS && k !in s.live)
    && s.op.attempts == |s.released| + s.finished + s.crashed + |s.live|
  }

  lemma StepAccounted(s: System, e: Event)
    requires Accounted(s)
    ensures Accounted(Step(s, e))
  {
    if e.Claim? && Claimable(s.op, e.now) {
      assert s.op.attempts + 1 !in s.live;
    } else if (e.End? || e.Crash?) && e.worker in s.live {
      assert (s.live - {e.worker}).Keys == s.live.Keys - {e.worker};
    }
  }

  lemma {:induction false} RunAccounted(s: System, events: seq<Event>)
    requires Accounted(s)
    ensures Accounted(Run(s, events))
    decreases |events|
  {
    if events != [] {
      StepAccounted(s, events[0]);
      RunAccounted(Step(s, events[0]), events[1..]);
    }
  }

  lemma {:induction false} BoundedSet(s: set<nat>, n: nat)
    requires forall k :: k in s ==> 1 <= k <= n
    ensures |s| <= n
  {
    if n == 0 {
      assert s == {};
    } else {
      BoundedSet(s - {n}, n - 1);
    }
  }

  /** Under any interleaving of stale workers, clocks and crashes an operation is released for
      retry at most four times. */
  lemma ReleasedAtMostFour(now: int, email: Option<nat>, mail: Mail, events: seq<Event>)
    ensures |Run(Submitted(now, email, mail), events).released| <= 4
  {
    RunAccounted(Submitted(now, email, mail), events);
    BoundedSet(Run(Submitted(now, email, mail), events).released, 4);
  }

  // ---------- When surviving workers keep their leases ----------

  /** Time does not run back, and no worker is still alive after its lease. */
  ghost predicate Timely(s: System, e: Event) {
    e.Crash? || (s.clock <= e.now && forall k :: k in s.live ==> e.now <= s.live[k].lease)
  }

  ghost predicate AllTimely(s: System, events: seq<Event>)
    decreases |events|
  {
    events == [] || (Timely(s, events[0]) && AllTimely(Step(s, events[0]), events[1..]))
  }

  /** This worker made the last claim, and the row is RUNNING under its lease. */
  predicate Holds(op: Operation, k: nat, worker: Worker) {
    k == op.attempts && op.status == Running && op.lease == Some(worker.lease)
  }

  /** Only the worker of the last claim can be live, and only while the row is RUNNING under its lease. */
  ghost predicate Held(s: System) {
    && Accounted(s)
    && (forall k :: k in s.live ==> Holds(s.op, k, s.live[k]))
    && (s.op.status == Running ==> s.op.lease.Some?)
    && s.finished == (if s.op.status == Succeeded || s.op.status == Failed then 1 else 0)
  }

  /** A retry that waits finds its email neither in work nor failed. */
  ghost predicate MailReady(s: System) {
    s.op.status == Queued && s.op.attempts > 0 && s.op.email.Some? && s.op.email.value in s.mail ==>
      s.mail[s.op.email.value] !in {Processing, EmailFailed}
  }

  lemma StepHeld(s: System, e: Event)
    requires Held(s) && Timely(s, e)
    ensures Held(Step(s, e))
    ensures s.op.status == Succeeded || s.op.status == Failed ==> Step(s, e).op == s.op
  {
    StepAccounted(s, e);
    match e
    case Claim(now, delivery) => if Claimable(s.op, now) { ClaimedAlone(s, now, delivery); }
    case Work(_, _, _) =>
    case End(k, now, ending) => if k in s.live { OnlyWorker(s, k); }
    case Crash(k) => if k in s.live { OnlyWorker(s, k); }
  }

  /** A row is claimable only when no worker lives. */
  lemma ClaimedAlone(s: System, now: int, delivery: nat)
    requires Held(s) && Timely(s, Claim(now, delivery)) && Claimable(s.op, now)
    ensures s.live == map[]
  {
    if k :| k in s.live { assert false; }
  }

  lemma OnlyWorker(s: System, k: nat)
    requires Held(s) && k in s.live
    ensures s.live - {k} == map[] && s.live.Keys == {k}
  {
  }

  lemma StepMailReady(s: System, e: Event)
    requires Held(s) && MailReady(s)
    ensures MailReady(Step(s, e))
  {
  }

  lemma {:induction false} RunHeld(s: System, events: seq<Event>)
    requires Held(s) && AllTimely(s, events)
    ensures Held(Run(s, events))
    ensures MailReady(s) ==> MailReady(Run(s, events))
    ensures s.op.status == Succeeded || s.op.status == Failed ==> Run(s, events).op == s.op
    decreases |events|
  {
    if events != [] {
      StepHeld(s, events[0]);
      if MailReady(s) { StepMailReady(s, events[0]); }
      RunHeld(Step(s, events[0]), events[1..]);
    }
  }

  /** If every surviving worker ends within its lease: at most one live worker, and no more claims
      than five plus the crashes, and mail ready for every retry. Finality is `RunHeld`'s second promise. */
  lemma LeasesKept(now: int, email: Option<nat>, mail: Mail, events: seq<Event>)
    requires AllTimely(Submitted(now, email, mail), events)
    ensures var s := Run(Submitted(now, email, mail), events);
            |s.live| <= 1 && s.op.attempts <= 5 + s.crashed && MailReady(s)
  {
    RunHeld(Submitted(now, email, mail), events);
    var s := Run(Submitted(now, email, mail), events);
    ReleasedAtMostFour(now, email, mail, events);
    BoundedKeys(s.live, s.op.attempts);
  }

  lemma BoundedKeys(live: map<nat, Worker>, n: nat)
    requires forall k :: k in live ==> k == n
    ensures |live| <= 1 && (live != map[] ==> n in live)
  {
    assert live.Keys <= {n};
    assert |live| == |live.Keys|;
    if live.Keys != {n} { assert live.Keys == {}; }
  }

  /** Without that assumption finality fails: a worker stalled past its lease puts an operation
      that another worker completed back into the queue. */
  lemma StaleWorkerReopens(now: int, email: Option<nat>, mail: Mail)
    ensures var done := Run(Submitted(now, email, mail), [Claim(now, 1), Claim(now + LEASE_SECONDS + 1, 2), End(2, now + LEASE_SECONDS + 2, Success)]);
            done.op.status == Succeeded && Run(done, [End(1, now + LEASE_SECONDS + 3, Exception)]).op.status == Queued
  {
    var events := [Claim(now, 1), Claim(now + LEASE_SECONDS + 1, 2), End(2, now + LEASE_SECONDS + 2, Success)];
    var s1 := Step(Submitted(now, email, mail), events[0]);
    var s2 := Step(s1, events[1]);
    var s3 := Step(s2, events[2]);
    assert events[1..][1..] == events[2..] && events[2..][1..] == [];
    assert Run(s2, events[2..]) == s3;
    assert Run(s1, events[1..]) == s3;
    var last := [End(1, now + LEASE_SECONDS + 3, Exception)];
    assert last[1..] == [];
    assert Run(s3, last) == Step(s3, last[0]);
  }

  /** Nothing that can follow changes the status. */
  ghost predicate Final(s: System) {
    forall events :: Run(s, events).op.status == s.op.status
  }

  /** Exactly: a finished operation keeps its status under all that can follow if and only if no
      other worker of it is still alive. */
  lemma FinalExactly(s: System)
    requires s.op.status == Succeeded || s.op.status == Failed
    ensures Final(s) <==> s.live == map[]
  {
    if s.live == map[] {
      forall events ensures Run(s, events).op.status == s.op.status {
        NobodyLeft(s, events);
      }
    } else {
      var k :| k in s.live;
      var events := [End(k, s.clock, if s.op.status == Succeeded then Refused else Success)];
      OneStep(s, events[0]);
      assert Run(s, events).op.status != s.op.status;
    }
  }

  lemma OneStep(s: System, e: Event)
    ensures Run(s, [e]) == Step(s, e)
  {
    assert [e][1..] == [];
  }

  lemma {:induction false} NobodyLeft(s: System, events: seq<Event>)
    requires s.op.status == Succeeded || s.op.status == Failed
    requires s.live == map[]
    ensures Run(s, events).op == s.op
    decreases |events|
  {
    if events != [] { NobodyLeft(Step(s, events[0]), events[1..]); }
  }

  // ---------- The executor as a program ----------

  class OperationsStore {
    var operations: map<int, Operation>
    var emails: Mail

    method ClaimOperation(id: int, now: int) returns (r: Result<(Operation, bool)>)
      modifies this`operations
      ensures id !in old(operations) ==> r.Err? && operations == old(operations)
      ensures id in old(operations) && Claimable(old(operations)[id], now) ==>
                operations == old(operations)[id := Claimed(old(operations)[id], now)] && r == Ok((operations[id], true))
      ensures id in old(operations) && !Claimable(old(operations)[id], now) ==>
                operations == old(operations) && r == Ok((operations[id], false))
    {
      if id !in operations { return Err("queued operation does not exist"); }
      var op := operations[id];
      if op.status == Queued || (op.status == Running && op.lease.Some? && op.lease.value < now) {
        op := Operation(Running, op.attempts + 1, Some(now + LEASE_SECONDS), op.email);
        operations := operations[id := op];
        return Ok((op, true));
      }
      r := Ok((op, false));
    }

    method ResetSourceEmailPending(e: nat)
      modifies this`emails
      ensures emails == ResetPending(old(emails), Some(e))
    {
      if e in emails && (emails[e] == Processing || emails[e] == EmailFailed) { emails := emails[e := Pending]; }
    }

    method MarkSourceEmailFailed(e: nat)
      modifies this`emails
      ensures emails == MarkedFailed(old(emails), Some(e))
    {
      if e in emails { emails := emails[e := EmailFailed]; }
    }

    method ReleaseOperationForRetry(id: int)
      modifies this`operations
      ensures operations == if id in old(operations) then old(operations)[id := old(operations)[id].(status := Queued, lease := None)]
                            else old(operations)
    {
      if id in operations { operations := operations[id := operations[id].(status := Queued, lease := None)]; }
    }

    method FinishOperation(id: int, status: OperationStatus)
      modifies this`operations
      ensures operations == if id in old(operations) then old(operations)[id := old(operations)[id].(status := status, lease := None)]
                            else old(operations)
    {
      if id in operations { operations := operations[id := operations[id].(status := status, lease := None)]; }
    }
  }

  class OperationExecutor {
    const store: OperationsStore

    constructor (store: OperationsStore)
      ensures this.store == store
    {
      this.store := store;
    }

    /** One undisturbed execution; `raised` hands the message back to the queue. */
    method Execute(id: int, delivery: nat, now: int, ending: Ending) returns (raised: bool)
      requires id in store.operations
      modifies store
      ensures store.operations == old(store.operations)[id := Executed(old(store.operations)[id], delivery, now, ending)]
      ensures store.emails == ExecutedMail(old(store.emails), old(store.operations)[id], delivery, now, ending)
      ensures raised <==> Claimable(old(store.operations)[id], now) && Releases(Max(delivery, old(store.operations)[id].attempts + 1), ending)
    {
      var claim := store.ClaimOperation(id, now);
      var (op, claimed) := claim.value;
      if !claimed { return false; }
      var attempt := Max(delivery, op.attempts);
      if ending == Success {
        store.FinishOperation(id, Succeeded);
        return false;
      }
      if ending == Refused {
        store.FinishOperation(id, Failed);
        return false;
      }
      if op.email.Some? && attempt < MAX_ATTEMPTS { store.ResetSourceEmailPending(op.email.value); }
      if attempt < MAX_ATTEMPTS {
        store.ReleaseOperationForRetry(id);
        return true;
      }
      if op.email.Some? { store.MarkSourceEmailFailed(op.email.value); }
      store.FinishOperation(id, Failed);
      raised := false;
    }
  }

  function Executed(op: Operation, delivery: nat, now: int, ending: Ending): Operation {
    if Claimable(op, now) then Ended(Claimed(op, now), Max(delivery, op.attempts + 1), ending) else op
  }

  /** `n` executions of a fresh operation that all end in an exception, each with its own delivery. */
  function Tried(email: Option<nat>, mail: Mail, now: int, n: nat): (Operation, Mail) {
    if n == 0 then (Operation(Queued, 0, None, email), mail)
    else
      var (op, before) := Tried(email, mail, now, n - 1);
      (Executed(op, n, now, Exception), ExecutedMail(before, op, n, now, Exception))
  }

  /** Four retries are granted; the fifth exception is final, for the row and for its email. */
  lemma FifthExceptionFails(email: Option<nat>, mail: Mail, now: int)
    ensures forall n: nat :: n <= 4 ==> Tried(email, mail, now, n).0.status == Queued && Tried(email, mail, now, n).0.attempts == n
    ensures Tried(email, mail, now, 5).0.status == Failed && Tried(email, mail, now, 5).0.attempts == 5
    ensures email.Some? && email.value in mail ==>
              email.value in Tried(email, mail, now, 5).1 && Tried(email, mail, now, 5).1[email.value] == EmailFailed
  {
    forall n: nat | n <= 4
      ensures Tried(email, mail, now, n).0 == Operation(Queued, n, None, email) && Tried(email, mail, now, n).1.Keys == mail.Keys
    {
      FewExceptions(email, mail, now, n);
    }
    assert Tried(email, mail, now, 4).0 == Operation(Queued, 4, None, email);
  }

  lemma {:induction false} FewExceptions(email: Option<nat>, mail: Mail, now: int, n: nat)
    requires n <= 4
    ensures Tried(email, mail, now, n).0 == Operation(Queued, n, None, email) && Tried(email, mail, now, n).1.Keys == mail.Keys
  {
    if n > 0 { FewExceptions(email, mail, now, n - 1); }
  }

  function ExecutedMail(mail: Mail, op: Operation, delivery: nat, now: int, ending: Ending): Mail {
    if Claimable(op, now) then MailAfter(mail, op.email, Max(delivery, op.attempts + 1), ending) else mail
  }

  /** An undisturbed execution is a claim followed by the end of that worker in the interleaved system. */
  lemma ExecutionIsTwoEvents(s: System, delivery: nat, now: int, ending: Ending)
    requires Accounted(s)
    ensures var s' := Run(s, [Claim(now, delivery), End(s.op.attempts + 1, now, ending)]);
            s'.op == Executed(s.op, delivery, now, ending) && s'.mail == ExecutedMail(s.mail, s.op, delivery, now, ending)
  {
    TwoSteps(s, Claim(now, delivery), End(s.op.attempts + 1, now, ending));
    assert s.op.attempts + 1 !in s.live;
  }

  lemma TwoSteps(s: System, a: Event, b: Event)
    ensures Run(s, [a, b]) == Step(Step(s, a), b)
  {
    assert [a, b][1..] == [b];
    OneStep(Step(s, a), b);
  }
}
