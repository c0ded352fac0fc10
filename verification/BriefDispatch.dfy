/** Daily Brief dispatch: one audit row per account and local day, a sender with its own retry
    loop, and any number of workers that may stall or crash between any two of their steps. */
module BriefDispatch {
  import opened Wrappers

  /** Seconds after which an in-flight dispatch counts as crashed. */
  const DISPATCH_LEASE := 600

  const MAX_DISPATCH_ATTEMPTS := 3

  datatype Status = Dispatching | Accepted | Failed | Uncertain

  datatype Row = Row(status: Status, attemptCount: nat, startedAt: int, errorCode: Option<string>, acceptedAt: Option<int>)

  // ---------- The claim decision ----------

  datatype Decision = Decision(claim: bool, markAbandoned: bool)

  function ResolveDispatchClaim(status: Status, attemptCount: nat, startedAt: int, now: int): Decision {
    match status
    case Dispatching => Decision(false, now - startedAt >= DISPATCH_LEASE)
    case Failed => Decision(attemptCount < MAX_DISPATCH_ATTEMPTS, false)
    case _ => Decision(false, false)
  }

  /** The row after one claim, and whether the claim was granted. */
  function ClaimRow(row: Option<Row>, now: int): (Row, bool) {
    match row
    case None => (Row(Dispatching, 1, now, None, None), true)
    case Some(r) =>
      var decision := ResolveDispatchClaim(r.status, r.attemptCount, r.startedAt, now);
      if decision.markAbandoned then
        (r.(status := Uncertain, errorCode := Some("BRIEF_DISPATCH_ABANDONED")), false)
      else if !decision.claim then (r, false)
      else (r.(status := Dispatching, attemptCount := r.attemptCount + 1, startedAt := now, errorCode := None), true)
  }

  /** A first claim and a retry after at most two failures are granted; a dispatch younger than 600 seconds
      is left alone, and an older one is given up as UNCERTAIN. */
  lemma ClaimExactly(row: Option<Row>, now: int)
    ensures ClaimRow(row, now).1 <==> row.None? || (row.value.status == Failed && row.value.attemptCount < 3)
    ensures ClaimRow(row, now).1 ==>
              var r := ClaimRow(row, now).0;
              && r.status == Dispatching && r.startedAt == now && r.errorCode.None?
              && r.attemptCount == (if row.None? then 1 else row.value.attemptCount + 1)
              && r.acceptedAt == (if row.None? then None else row.value.acceptedAt)
    ensures row.Some? && !ClaimRow(row, now).1 ==>
              ClaimRow(row, now).0 == if row.value.status == Dispatching && now - row.value.startedAt >= 600
                                      then row.value.(status := Uncertain, errorCode := Some("BRIEF_DISPATCH_ABANDONED")) else row.value
  {
  }

  /** The row after a worker reports; `None` when the source raises because the row is not active. */
  function ReportRow(row: Option<Row>, status: Status, errorCode: Option<string>, now: int): Option<Row> {
    if row.None? || row.value.status != Dispatching then None
    else
      var r := row.value.(status := status, errorCode := errorCode);
      Some(if status == Accepted then r.(acceptedAt := Some(now)) else r)
  }

  /** Only a dispatching row takes a report; an accepted one notes when. */
  lemma ReportExactly(row: Option<Row>, status: Status, errorCode: Option<string>, now: int)
    ensures ReportRow(row, status, errorCode, now).Some? <==> row.Some? && row.value.status == Dispatching
    ensures ReportRow(row, status, errorCode, now).Some? ==>
              var r, r' := row.value, ReportRow(row, status, errorCode, now).value;
              && r'.status == status && r'.errorCode == errorCode && r'.attemptCount == r.attemptCount && r'.startedAt == r.startedAt
              && r'.acceptedAt == if status == Accepted then Some(now) else r.acceptedAt
  {
  }

  // ---------- The sender ----------

  /** What one turn of the send loop meets. `delivered` says whether the provider took the mail,
      which the client cannot see. */
  datatype Exchange =
    | TokenRefused(code: string)
    | TokenCrashed
    | ConnectFailed
    | TransportLost(delivered: bool)
    | ClientCrashed(delivered: bool)
    | Response(statusCode: int, delivered: bool)

  function Delivers(e: Exchange): nat {
    match e
    case TransportLost(d) => if d then 1 else 0
    case ClientCrashed(d) => if d then 1 else 0
    case Response(_, d) => if d then 1 else 0
    case _ => 0
  }

  /** What the sender takes the provider's answers to mean: a 202 is a delivery, and any other
      answer below 500 is none. */
  predicate Truthful(e: Exchange) {
    e.Response? && e.statusCode < 500 ==> e.delivered == (e.statusCode == 202)
  }

  datatype SendResult = Sent | DefinitelyUnsent(code: string) | Unsure | Unexpected

  datatype Loop = Loop(attempt: nat, forceRefresh: bool, refreshed: bool)

  datatype Turn = Again(next: Loop) | Stop(result: SendResult)

  /** One turn of the loop in `send_brief`. */
  function SendTurn(maxAttempts: int, l: Loop, e: Exchange): (t: Turn)
    ensures t.Again? ==> t.next.attempt == l.attempt + 1 < maxAttempts && (l.refreshed ==> t.next.refreshed)
  {
    var last := l.attempt + 1 >= maxAttempts;
    var next := l.(attempt := l.attempt + 1);
    match e
    case TokenRefused(code) => Stop(DefinitelyUnsent(code))
    case TokenCrashed => Stop(Unexpected)
    case ConnectFailed => if last then Stop(DefinitelyUnsent("BRIEF_SEND_FAILED")) else Again(next)
    case TransportLost(_) => Stop(Unsure)
    case ClientCrashed(_) => Stop(Unexpected)
    case Response(code, _) =>
      if code == 202 then Stop(Sent)
      else if code == 401 then
        if l.refreshed || last then Stop(DefinitelyUnsent("GRAPH_AUTH_ERROR"))
        else Again(next.(forceRefresh := true, refreshed := true))
      else if code == 429 then
        if last then Stop(DefinitelyUnsent("BRIEF_SEND_FAILED")) else Again(next.(forceRefresh := false))
      else if code >= 500 then Stop(Unsure)
      else Stop(DefinitelyUnsent("BRIEF_SEND_FAILED"))
  }

  /** Only outcomes that surely delivered nothing are retried, while turns are left: a connection that was
      never made, a throttled request, and a first rejected token, which is then refreshed. */
  predicate Retries(l: Loop, e: Exchange) {
    || e.ConnectFailed?
    || (e.Response? && (e.statusCode == 429 || (e.statusCode == 401 && !l.refreshed)))
  }

  lemma TurnExactly(maxAttempts: int, l: Loop, e: Exchange)
    ensures var t := SendTurn(maxAttempts, l, e);
            && (t.Again? <==> Retries(l, e) && l.attempt + 1 < maxAttempts)
            && (t.Again? ==> t.next.attempt == l.attempt + 1
                             && t.next.refreshed == (l.refreshed || (e.Response? && e.statusCode == 401))
                             && t.next.forceRefresh == if e.Response? then e.statusCode == 401 else l.forceRefresh)
            && (t.Stop? ==>
                  && (t.result.Sent? <==> e.Response? && e.statusCode == 202)
                  && (t.result.Unsure? <==> e.TransportLost? || (e.Response? && e.statusCode >= 500))
                  && (t.result.Unexpected? <==> e.TokenCrashed? || e.ClientCrashed?))
  {
  }

  /** What the send loop reports when turn `i` meets `meet(i)`. */
  function SendFrom(maxAttempts: int, l: Loop, meet: nat -> Exchange): SendResult
    decreases maxAttempts - l.attempt
  {
    if l.attempt >= maxAttempts then DefinitelyUnsent("BRIEF_SEND_FAILED")
    else
      match SendTurn(maxAttempts, l, meet(l.attempt))
      case Stop(result) => result
      case Again(next) => SendFrom(maxAttempts, next, meet)
  }

  // ---------- The interleaved system ----------

  /** Where a live worker stands after its claim was granted. */
  datatype Phase = Rendering | Sending(loop: Loop) | Reporting(status: Status, errorCode: Option<string>)

  /** `deliveries` and `grants` count what really happened; no code reads them. */
  datatype System = System(row: Option<Row>, workers: map<int, Phase>, deliveries: nat, grants: nat)

  const INITIAL := System(None, map[], 0, 0)

  /** One step of one worker. A worker that never takes its next step has crashed or stalls. */
  datatype Event =
    | Claim(worker: int, now: int)
    | Rendered(worker: int)
    | RenderRaised(worker: int, code: Option<string>)
    | Exchanged(worker: int, exchange: Exchange)
    | Report(worker: int, now: int)
    | Crash(worker: int)

  function AfterSend(result: SendResult): Phase {
    match result
    case Sent => Reporting(Accepted, None)
    case DefinitelyUnsent(code) => Reporting(Failed, Some(code))
    case Unsure => Reporting(Uncertain, Some("BRIEF_SEND_FAILED"))
    case Unexpected => Reporting(Uncertain, Some("BRIEF_SEND_UNEXPECTED"))
  }

  /** Only a definite refusal is reported FAILED, and so may be tried again. */
  lemma ReportedExactly(result: SendResult)
    ensures AfterSend(result) == match result
                                 case Sent => Reporting(Accepted, None)
                                 case DefinitelyUnsent(code) => Reporting(Failed, Some(code))
                                 case Unsure => Reporting(Uncertain, Some("BRIEF_SEND_FAILED"))
                                 case Unexpected => Reporting(Uncertain, Some("BRIEF_SEND_UNEXPECTED"))
  {
  }

  function AfterTurn(turn: Turn): Phase {
    match turn
    case Again(next) => Sending(next)
    case Stop(result) => AfterSend(result)
  }

  function StartSending(maxAttempts: int): Phase {
    if maxAttempts <= 0 then AfterSend(DefinitelyUnsent("BRIEF_SEND_FAILED"))
    else Sending(Loop(0, false, false))
  }

  /** Steps that are not possible leave the system as it is. */
  function Step(maxAttempts: int, s: System, e: Event): System {
    match e
    case Claim(w, now) =>
      if w in s.workers then s
      else
        var (row, granted) := ClaimRow(s.row, now);
        if granted then s.(row := Some(row), workers := s.workers[w := Rendering], grants := s.grants + 1)
        else s.(row := Some(row))
    case Rendered(w) =>
      if w !in s.workers || !s.workers[w].Rendering? then s
      else s.(workers := s.workers[w := StartSending(maxAttempts)])
    case RenderRaised(w, code) =>
      if w !in s.workers || !s.workers[w].Rendering? then s
      else
        var errorCode := if code.Some? then code else Some("BRIEF_GENERATION_FAILED");
        s.(workers := s.workers[w := Reporting(Failed, errorCode)])
    case Exchanged(w, x) =>
      if w !in s.workers || !s.workers[w].Sending? then s
      else s.(workers := s.workers[w := AfterTurn(SendTurn(maxAttempts, s.workers[w].loop, x))],
              deliveries := s.deliveries + Delivers(x))
    case Report(w, now) =>
      if w !in s.workers || !s.workers[w].Reporting? then s
      else
        var row := ReportRow(s.row, s.workers[w].status, s.workers[w].errorCode, now);
        System(if row.Some? then row else s.row, s.workers - {w}, s.deliveries, s.grants)
    case Crash(w) => s.(workers := s.workers - {w})
  }

  /** A worker whose brief cannot be rendered has sent nothing and reports FAILED; one that rendered starts
      sending afresh; and the status a worker reports becomes that of a dispatching row. */
  lemma WorkerExactly(maxAttempts: int, s: System, w: int, code: Option<string>, now: int)
    requires w in s.workers
    ensures s.workers[w].Rendering? ==>
              Step(maxAttempts, s, RenderRaised(w, code))
              == s.(workers := s.workers[w := Reporting(Failed, if code.Some? then code else Some("BRIEF_GENERATION_FAILED"))])
    ensures s.workers[w].Rendering? && maxAttempts > 0 ==>
              Step(maxAttempts, s, Rendered(w)) == s.(workers := s.workers[w := Sending(Loop(0, false, false))])
    ensures s.workers[w].Reporting? && s.row.Some? && s.row.value.status == Dispatching ==>
              var s' := Step(maxAttempts, s, Report(w, now));
              && s'.row.Some? && s'.row.value.status == s.workers[w].status && s'.row.value.errorCode == s.workers[w].errorCode
              && s'.workers == s.workers - {w}
  {
  }

  function Run(maxAttempts: int, s: System, events: seq<Event>): System
    decreases |events|
  {
    if events == [] then s else Run(maxAttempts, Step(maxAttempts, s, events[0]), events[1..])
  }

  // ---------- At most one delivery ----------

  /** What a live worker knows about deliveries, all of them together. */
  predicate PhaseAgrees(p: Phase, deliveries: nat) {
    match p
    case Reporting(Accepted, _) => deliveries == 1
    case Reporting(Failed, _) => deliveries == 0
    case Reporting(Uncertain, _) => deliveries <= 1
    case Reporting(Dispatching, _) => false
    case _ => deliveries == 0
  }

  ghost predicate Safe(s: System) {
    && (forall v, w :: v in s.workers && w in s.workers ==> v == w)
    && (forall w :: w in s.workers ==> PhaseAgrees(s.workers[w], s.deliveries))
    && s.deliveries <= 1
    && (s.row.None? ==> s.workers == map[] && s.deliveries == 0 && s.grants == 0)
    && (s.row.Some? ==>
          && s.grants == s.row.value.attemptCount && 1 <= s.grants <= MAX_DISPATCH_ATTEMPTS
          && (s.row.value.status == Failed ==> s.workers == map[] && s.deliveries == 0)
          && (s.row.value.status == Accepted ==> s.workers == map[] && s.deliveries == 1))
  }

  /** What a turn leads to agrees with the deliveries exactly when the answer was truthful. */
  lemma TurnAgrees(maxAttempts: int, l: Loop, x: Exchange)
    ensures PhaseAgrees(AfterTurn(SendTurn(maxAttempts, l, x)), Delivers(x)) <==> Truthful(x)
  {
  }

  predicate TruthfulEvent(e: Event) {
    e.Exchanged? ==> Truthful(e.exchange)
  }

  predicate AllTruthful(events: seq<Event>) {
    forall i :: 0 <= i < |events| ==> TruthfulEvent(events[i])
  }

  lemma StepSafe(maxAttempts: int, s: System, e: Event)
    requires Safe(s) && TruthfulEvent(e)
    ensures Safe(Step(maxAttempts, s, e))
  {
    if e.Exchanged? && e.worker in s.workers && s.workers[e.worker].Sending? {
      TurnAgrees(maxAttempts, s.workers[e.worker].loop, e.exchange);
    }
  }

  lemma {:induction false} RunSafe(maxAttempts: int, s: System, events: seq<Event>)
    requires Safe(s) && AllTruthful(events)
    ensures Safe(Run(maxAttempts, s, events))
    decreases |events|
  {
    if events != [] {
      StepSafe(maxAttempts, s, events[0]);
      RunSafe(maxAttempts, Step(maxAttempts, s, events[0]), events[1..]);
    }
  }

  /** Over every interleaving of any workers, stalled past the lease or crashed anywhere, with
      any clock readings, if the provider answers truthfully: one delivery at most, and claims equal
      `attempt_count`, at most three. */
  lemma AtMostOnce(maxAttempts: int, events: seq<Event>)
    requires AllTruthful(events)
    ensures var s := Run(maxAttempts, INITIAL, events);
            && s.deliveries <= 1
            && s.grants == (if s.row.None? then 0 else s.row.value.attemptCount)
            && s.grants <= 3
            && (s.row.Some? && s.row.value.status == Accepted ==> s.deliveries == 1)
            && (s.row.Some? && s.row.value.status == Failed ==> s.deliveries == 0)
  {
    RunSafe(maxAttempts, INITIAL, events);
  }

  /** Two deliveries of one worker, or of two when the first untruthful answer ends its loop. */
  function TwoDeliveries(maxAttempts: int, code: int, now: int): seq<Event> {
    var first := [Claim(0, now), Rendered(0), Exchanged(0, Response(code, true))];
    var retried := SendTurn(maxAttempts, Loop(0, false, false), Response(code, true)).Again?;
    first + (if retried then [] else [Report(0, now), Claim(0, now), Rendered(0)]) + [Exchanged(0, Response(202, true))]
  }

  /** Without truthful answers the promise fails, for every status below 500 that is not 202. */
  lemma UntruthfulDuplicates(maxAttempts: int, code: int, now: int)
    requires maxAttempts >= 1 && code < 500 && code != 202
    ensures Run(maxAttempts, INITIAL, TwoDeliveries(maxAttempts, code, now)).deliveries == 2
  {
    var x, ok := Exchanged(0, Response(code, true)), Exchanged(0, Response(202, true));
    var first := [Claim(0, now), Rendered(0), x];
    var s := Step(maxAttempts, Step(maxAttempts, Step(maxAttempts, INITIAL, first[0]), first[1]), first[2]);
    ThreeSteps(maxAttempts, INITIAL, first[0], first[1], first[2]);
    assert s.deliveries == 1;
    if s.workers[0].Sending? {
      assert TwoDeliveries(maxAttempts, code, now) == first + [ok];
      RunAppend(maxAttempts, INITIAL, first, ok);
    } else {
      var again := [Report(0, now), Claim(0, now), Rendered(0)];
      ThreeSteps(maxAttempts, s, again[0], again[1], again[2]);
      RunConcat(maxAttempts, INITIAL, first, again);
      RunAppend(maxAttempts, INITIAL, first + again, ok);
    }
  }

  lemma ThreeSteps(maxAttempts: int, s: System, a: Event, b: Event, c: Event)
    ensures Run(maxAttempts, s, [a, b, c]) == Step(maxAttempts, Step(maxAttempts, Step(maxAttempts, s, a), b), c)
  {
    assert [a, b, c] == ([] + [a] + [b]) + [c];
    RunAppend(maxAttempts, s, [] + [a] + [b], c);
    RunAppend(maxAttempts, s, [] + [a], b);
    RunAppend(maxAttempts, s, [], a);
  }

  predicate Closed(s: System) {
    s.row.Some? && s.row.value.status in {Accepted, Uncertain}
  }

  /** ACCEPTED and UNCERTAIN rows never change again, and no claim is granted after them. */
  lemma {:induction false} ClosedForever(maxAttempts: int, s: System, events: seq<Event>)
    requires Closed(s)
    ensures Run(maxAttempts, s, events).row == s.row
    ensures Run(maxAttempts, s, events).grants == s.grants
    decreases |events|
  {
    if events != [] {
      ClosedForever(maxAttempts, Step(maxAttempts, s, events[0]), events[1..]);
    }
  }

  // ---------- The methods ----------

  lemma {:induction false} RunAppend(maxAttempts: int, s: System, before: seq<Event>, e: Event)
    ensures Run(maxAttempts, s, before + [e]) == Step(maxAttempts, Run(maxAttempts, s, before), e)
    decreases |before|
  {
    if before == [] {
      assert [e][1..] == [];
    } else {
      assert (before + [e])[1..] == before[1..] + [e];
      RunAppend(maxAttempts, Step(maxAttempts, s, before[0]), before[1..], e);
    }
  }

  class GraphBriefMailClient {
    const maxAttempts: int

    constructor (maxAttempts: int)
      ensures this.maxAttempts == maxAttempts
    {
      this.maxAttempts := maxAttempts;
    }

    /** The retry loop; `meet(i)` is what the environment answers at turn `i`. Its turns are
        the worker's steps of the interleaved system. */
    method SendBrief(meet: nat -> Exchange, ghost worker: int, ghost s: System)
      returns (result: SendResult, ghost events: seq<Event>)
      requires worker in s.workers && s.workers[worker] == StartSending(maxAttempts)
      ensures result == SendFrom(maxAttempts, Loop(0, false, false), meet)
      ensures Run(maxAttempts, s, events) ==
              s.(workers := s.workers[worker := AfterSend(result)], deliveries := Run(maxAttempts, s, events).deliveries)
      ensures |events| <= if maxAttempts < 0 then 0 else maxAttempts
      ensures forall i :: 0 <= i < |events| ==> events[i] == Exchanged(worker, meet(i))
    {
      var forceRefresh, refreshed, attempt := false, false, 0;
      events := [];
      while attempt < maxAttempts
        invariant |events| == attempt && (attempt == 0 || attempt < maxAttempts)
        invariant SendFrom(maxAttempts, Loop(0, false, false), meet) == SendFrom(maxAttempts, Loop(attempt, forceRefresh, refreshed), meet)
        invariant forall i :: 0 <= i < |events| ==> events[i] == Exchanged(worker, meet(i))
        invariant Run(maxAttempts, s, events) ==
                  s.(workers := s.workers[worker := if maxAttempts <= 0 then StartSending(maxAttempts)
                                          else Sending(Loop(attempt, forceRefresh, refreshed))],
                     deliveries := Run(maxAttempts, s, events).deliveries)
        decreases maxAttempts - attempt
      {
        var x := meet(attempt);
        RunAppend(maxAttempts, s, events, Exchanged(worker, x));
        events := events + [Exchanged(worker, x)];
        match x {
          case TokenRefused(code) =>
            return DefinitelyUnsent(code), events;
          case TokenCrashed =>
            return Unexpected, events;
          case ConnectFailed =>
            if attempt + 1 >= maxAttempts { return DefinitelyUnsent("BRIEF_SEND_FAILED"), events; }
          case TransportLost(_) =>
            return Unsure, events;
          case ClientCrashed(_) =>
            return Unexpected, events;
          case Response(code, _) =>
            if code == 202 { return Sent, events; }
            if code == 401 {
              if refreshed || attempt + 1 >= maxAttempts { return DefinitelyUnsent("GRAPH_AUTH_ERROR"), events; }
              forceRefresh := true;
              refreshed := true;
            } else {
              forceRefresh := false;
              if code == 429 {
                if attempt + 1 >= maxAttempts { return DefinitelyUnsent("BRIEF_SEND_FAILED"), events; }
              } else {
                return if code >= 500 then Unsure else DefinitelyUnsent("BRIEF_SEND_FAILED"), events;
              }
            }
        }
        attempt := attempt + 1;
      }
      result := DefinitelyUnsent("BRIEF_SEND_FAILED");
    }
  }

  /** One audit row per account and local day. */
  class DailyBriefStore {
    var rows: map<(int, int), Row>

    constructor ()
      ensures rows == map[]
    {
      rows := map[];
    }

    function Find(key: (int, int)): Option<Row>
      reads this
    {
      if key in rows then Some(rows[key]) else None
    }

    method ClaimDispatch(key: (int, int), now: int) returns (granted: bool)
      modifies this
      ensures (Find(key), granted) == (Some(ClaimRow(old(Find(key)), now).0), ClaimRow(old(Find(key)), now).1)
      ensures rows == old(rows)[key := rows[key]]
    {
      if key !in rows {
        rows := rows[key := Row(Dispatching, 1, now, None, None)];
        return true;
      }
      var model := rows[key];
      var decision := ResolveDispatchClaim(model.status, model.attemptCount, model.startedAt, now);
      if decision.markAbandoned {
        rows := rows[key := model.(status := Uncertain, errorCode := Some("BRIEF_DISPATCH_ABANDONED"))];
        return false;
      }
      if !decision.claim { return false; }
      rows := rows[key := Row(Dispatching, model.attemptCount + 1, now, None, model.acceptedAt)];
      return true;
    }

    /** False where the source raises. */
    method SetStatus(key: (int, int), status: Status, errorCode: Option<string>, now: int) returns (active: bool)
      modifies this
      ensures active == ReportRow(old(Find(key)), status, errorCode, now).Some?
      ensures active ==> rows == old(rows)[key := ReportRow(old(Find(key)), status, errorCode, now).value]
      ensures !active ==> rows == old(rows)
    {
      if key !in rows || rows[key].status != Dispatching { return false; }
      var model := rows[key].(status := status, errorCode := errorCode);
      rows := rows[key := if status == Accepted then model.(acceptedAt := Some(now)) else model];
      return true;
    }
  }

  /** `Some` when rendering raises; the inner code is that of an expected failure. */
  type RenderFailure = Option<Option<string>>

  datatype Outcome = NotClaimed | Delivered | Raised

  class DailyBriefService {
    const store: DailyBriefStore
    const client: GraphBriefMailClient

    constructor (store: DailyBriefStore, client: GraphBriefMailClient)
      ensures this.store == store && this.client == client
    {
      this.store := store;
      this.client := client;
    }

    /** Between claim and report: what worker 0 will report, and the steps that led there. */
    method Deliver(render: RenderFailure, meet: nat -> Exchange, ghost s: System)
      returns (status: Status, errorCode: Option<string>, ghost events: seq<Event>)
      requires s.workers == map[0 := Rendering]
      ensures status != Dispatching
      ensures Run(client.maxAttempts, s, events) ==
              s.(workers := map[0 := Reporting(status, errorCode)], deliveries := Run(client.maxAttempts, s, events).deliveries)
    {
      match render {
        case Some(code) =>
          status, errorCode, events := Failed, if code.Some? then code else Some("BRIEF_GENERATION_FAILED"), [RenderRaised(0, code)];
          RunAppend(client.maxAttempts, s, [], RenderRaised(0, code));
        case None =>
          var result;
          ghost var sending;
          events := [Rendered(0)];
          RunAppend(client.maxAttempts, s, [], Rendered(0));
          result, sending := client.SendBrief(meet, 0, Step(client.maxAttempts, s, Rendered(0)));
          RunConcat(client.maxAttempts, s, events, sending);
          events := events + sending;
          match result {
            case Sent => status, errorCode := Accepted, None;
            case DefinitelyUnsent(code) => status, errorCode := Failed, Some(code);
            case Unsure => status, errorCode := Uncertain, Some("BRIEF_SEND_FAILED");
            case Unexpected => status, errorCode := Uncertain, Some("BRIEF_SEND_UNEXPECTED");
          }
      }
    }

    /** Without interference, `send_today` is one schedule of the interleaved system: the steps
        it returns lead from the old row to the new one and leave no worker behind. */
    method SendToday(key: (int, int), now: int, render: RenderFailure, meet: nat -> Exchange, finishedAt: int)
      returns (outcome: Outcome, ghost events: seq<Event>)
      modifies store
      ensures var s := System(old(store.Find(key)), map[], 0, 0);
              var t := Run(client.maxAttempts, s, events);
              && store.Find(key) == t.row && t.row.Some? && t.workers == map[]
              && (outcome == Delivered <==> t.grants == 1 && t.row.value.status == Accepted)
              && (outcome == NotClaimed <==> t.grants == 0)
              && (outcome == Raised ==> t.row.value.status in {Failed, Uncertain})
      ensures key in store.rows && store.rows == old(store.rows)[key := store.rows[key]]
    {
      ghost var s := System(store.Find(key), map[], 0, 0);
      ghost var max := client.maxAttempts;
      var claimed := store.ClaimDispatch(key, now);
      events := [Claim(0, now)];
      assert Run(max, s, events) == Step(max, s, Claim(0, now)) by {
        assert events == [] + [Claim(0, now)];
        RunAppend(max, s, [], Claim(0, now));
      }
      if !claimed { return NotClaimed, events; }
      ghost var claiming := Run(max, s, events);
      var status, errorCode;
      ghost var working;
      status, errorCode, working := Deliver(render, meet, claiming);
      RunConcat(max, s, events, working);
      events := events + working;
      RunAppend(max, s, events, Report(0, finishedAt));
      events := events + [Report(0, finishedAt)];
      var active := store.SetStatus(key, status, errorCode, finishedAt);
      outcome := if status == Accepted then Delivered else Raised;
    }
  }

  lemma {:induction false} RunConcat(maxAttempts: int, s: System, before: seq<Event>, after: seq<Event>)
    ensures Run(maxAttempts, s, before + after) == Run(maxAttempts, Run(maxAttempts, s, before), after)
    decreases |before|
  {
    if before == [] {
      assert before + after == after;
    } else {
      assert (before + after)[1..] == before[1..] + after;
      RunConcat(maxAttempts, Step(maxAttempts, s, before[0]), before[1..], after);
    }
  }
}
