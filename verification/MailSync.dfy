/** Mail delta synchronization of one account folder: every fetched page is committed together
    with its continuation cursor. */
module MailSync {
  import opened Wrappers
  import Statuses

  /** Seconds during which a SYNCING row refuses other runs. */
  const SYNC_LEASE := 600

  type Link = string

  datatype Fields = Fields(internetMessageId: Option<string>, subject: string, senderDomain: Option<string>,
                           receivedAt: int, webLink: Option<string>, hasAttachments: bool)

  datatype Candidate = Candidate(id: string, fields: Fields, bodyHash: Option<string>)

  datatype Email = Email(account: int, fields: Fields, bodyHash: Option<string>, status: Statuses.EmailStatus)

  datatype Page = Page(messages: seq<Candidate>, nextLink: Option<Link>, deltaLink: Option<Link>)

  datatype SyncStatus = Idle | Syncing | Succeeded | Failed

  datatype SyncState = SyncState(cursor: Option<Link>, startedAt: Option<int>, finishedAt: Option<int>,
                                 status: SyncStatus, errorCode: Option<string>)

  datatype Db = Db(emails: map<string, Email>, state: Option<SyncState>)

  function Cursor(db: Db): Option<Link> {
    if db.state.None? then None else db.state.value.cursor
  }

  // ---------- Upserts ----------

  /** The last message of each id on a page. */
  function Latest(messages: seq<Candidate>): map<string, Candidate> {
    if messages == [] then map[]
    else
      var last := messages[|messages| - 1];
      Latest(messages[..|messages| - 1])[last.id := last]
  }

  lemma {:induction false} LatestIds(messages: seq<Candidate>)
    ensures |Latest(messages)| <= |messages|
    ensures forall k :: 0 <= k < |messages| ==> messages[k].id in Latest(messages)
  {
    if messages != [] {
      var front := messages[..|messages| - 1];
      LatestIds(front);
      forall k | 0 <= k < |messages| ensures messages[k].id in Latest(messages) {
        if k < |front| { assert front[k] == messages[k]; }
      }
    }
  }

  function Coalesce(a: Option<string>, b: Option<string>): Option<string> {
    if a.Some? then a else b
  }

  function Get<T>(m: map<string, T>, id: string): Option<T> {
    if id in m then Some(m[id]) else None
  }

  /** One row after a message, if any, is upserted on it. */
  function Write(account: int, row: Option<Email>, message: Option<Candidate>): Option<Email> {
    if message.None? then row
    else
      var c := message.value;
      if row.None? then Some(Email(account, c.fields, c.bodyHash, Statuses.Pending))
      else Some(row.value.(fields := c.fields, bodyHash := Coalesce(c.bodyHash, row.value.bodyHash)))
  }

  function WriteAll(account: int, emails: map<string, Email>, latest: map<string, Candidate>): map<string, Email> {
    map id | id in emails.Keys + latest.Keys :: Write(account, Get(emails, id), Get(latest, id)).value
  }

  function Upsert(account: int, emails: map<string, Email>, messages: seq<Candidate>): map<string, Email> {
    WriteAll(account, emails, Latest(messages))
  }

  function Only(latest: map<string, Candidate>, ids: set<string>): map<string, Candidate> {
    map id | id in latest && id in ids :: latest[id]
  }

  /** Writing the rows one by one, in any order. */
  lemma WriteOne(account: int, emails: map<string, Email>, latest: map<string, Candidate>, ids: set<string>, id: string)
    requires id in latest && id !in ids
    ensures var before := WriteAll(account, emails, Only(latest, ids));
            before[id := Write(account, Get(before, id), Some(latest[id])).value] == WriteAll(account, emails, Only(latest, ids + {id}))
  {
    var before := WriteAll(account, emails, Only(latest, ids));
    assert Get(before, id) == Get(emails, id);
  }

  function UpsertAll(account: int, emails: map<string, Email>, batches: seq<seq<Candidate>>): map<string, Email>
    decreases |batches|
  {
    if batches == [] then emails else UpsertAll(account, Upsert(account, emails, batches[0]), batches[1..])
  }

  /** The combined effect of two messages of one id, the second one later. */
  function Then(x: Option<Candidate>, y: Option<Candidate>): Option<Candidate> {
    if x.None? then y
    else if y.None? then x
    else Some(y.value.(bodyHash := Coalesce(y.value.bodyHash, x.value.bodyHash)))
  }

  function Net(batches: seq<seq<Candidate>>, id: string): Option<Candidate>
    decreases |batches|
  {
    if batches == [] then None else Then(Get(Latest(batches[0]), id), Net(batches[1..], id))
  }

  lemma {:induction false} UpsertAllNet(account: int, emails: map<string, Email>, batches: seq<seq<Candidate>>, id: string)
    ensures Get(UpsertAll(account, emails, batches), id) == Write(account, Get(emails, id), Net(batches, id))
    decreases |batches|
  {
    if batches != [] {
      var first := Get(Latest(batches[0]), id);
      UpsertAllNet(account, Upsert(account, emails, batches[0]), batches[1..], id);
      assert Get(Upsert(account, emails, batches[0]), id) == Write(account, Get(emails, id), first);
    }
  }

  lemma {:induction false} NetCovers(batches: seq<seq<Candidate>>, k: nat, id: string)
    requires k < |batches| && id in Latest(batches[k])
    ensures Net(batches, id).Some?
    ensures Net(batches, id).value.bodyHash.None? ==> Latest(batches[k])[id].bodyHash.None?
    decreases |batches|
  {
    if k > 0 { NetCovers(batches[1..], k - 1, id); }
  }

  /** A page upserted before a pass that contains it leaves no trace. */
  lemma Absorb(account: int, emails: map<string, Email>, batches: seq<seq<Candidate>>, k: nat)
    requires k < |batches|
    ensures UpsertAll(account, Upsert(account, emails, batches[k]), batches) == UpsertAll(account, emails, batches)
  {
    var left := UpsertAll(account, Upsert(account, emails, batches[k]), batches);
    var right := UpsertAll(account, emails, batches);
    forall id ensures Get(left, id) == Get(right, id) {
      UpsertAllNet(account, Upsert(account, emails, batches[k]), batches, id);
      UpsertAllNet(account, emails, batches, id);
      if id in Latest(batches[k]) { NetCovers(batches, k, id); }
    }
    forall id ensures id in left <==> id in right {
      assert Get(left, id) == Get(right, id);
    }
    forall id | id in left ensures left[id] == right[id] {
      assert Get(left, id) == Get(right, id);
    }
  }

  lemma UpsertGrows(account: int, emails: map<string, Email>, messages: seq<Candidate>)
    ensures var r := Upsert(account, emails, messages);
            && r.Keys == emails.Keys + Latest(messages).Keys
            && (forall id :: id in emails ==> r[id].status == emails[id].status && r[id].account == emails[id].account
                                              && (emails[id].bodyHash.Some? ==> r[id].bodyHash.Some?))
            && (forall id :: id in r && id !in emails ==> r[id].status == Statuses.Pending)
  {
  }

  /** The row of an email after a page: the last message of its id, over what the row had. */
  lemma UpsertRow(account: int, emails: map<string, Email>, messages: seq<Candidate>, j: nat)
    requires j < |messages| && forall k :: j < k < |messages| ==> messages[k].id != messages[j].id
    ensures var c, r := messages[j], Upsert(account, emails, messages);
            && c.id in r && r[c.id].fields == c.fields
            && r[c.id].bodyHash == (if c.bodyHash.Some? then c.bodyHash else if c.id in emails then emails[c.id].bodyHash else None)
            && (c.id in emails ==> r[c.id].account == emails[c.id].account && r[c.id].status == emails[c.id].status)
            && (c.id !in emails ==> r[c.id].account == account && r[c.id].status == Statuses.Pending)
  {
    LastOfId(messages, j);
  }

  lemma {:induction false} LastOfId(messages: seq<Candidate>, j: nat)
    requires j < |messages| && forall k :: j < k < |messages| ==> messages[k].id != messages[j].id
    ensures messages[j].id in Latest(messages) && Latest(messages)[messages[j].id] == messages[j]
  {
    if j < |messages| - 1 {
      assert messages[|messages| - 1].id != messages[j].id;
      LastOfId(messages[..|messages| - 1], j);
    }
  }

  /** Emails that are not on the page keep their rows. */
  lemma UpsertOthers(account: int, emails: map<string, Email>, messages: seq<Candidate>, id: string)
    requires forall k :: 0 <= k < |messages| ==> messages[k].id != id
    ensures Get(Upsert(account, emails, messages), id) == Get(emails, id)
  {
    NotLatest(messages, id);
  }

  lemma {:induction false} NotLatest(messages: seq<Candidate>, id: string)
    requires forall k :: 0 <= k < |messages| ==> messages[k].id != id
    ensures id !in Latest(messages)
  {
    if messages != [] { NotLatest(messages[..|messages| - 1], id); }
  }

  predicate HasAll(emails: map<string, Email>, messages: seq<Candidate>) {
    forall k :: 0 <= k < |messages| ==> messages[k].id in emails
  }

  lemma UpsertStores(account: int, emails: map<string, Email>, messages: seq<Candidate>)
    ensures emails.Keys <= Upsert(account, emails, messages).Keys
    ensures HasAll(Upsert(account, emails, messages), messages)
  {
    LatestIds(messages);
  }

  // ---------- Row transactions ----------

  datatype Ingestion = Ingestion(inserted: nat, updated: nat)

  function Counts(emails: map<string, Email>, messages: seq<Candidate>): (r: Ingestion) {
    var ids := Latest(messages).Keys;
    Ingestion(|ids - emails.Keys|, |ids * emails.Keys|)
  }

  lemma SetCounts(keys: set<string>, ids: set<string>)
    ensures |keys + ids| == |keys| + |ids - keys|
    ensures |ids| == |ids - keys| + |ids * keys|
  {
    assert keys + ids == keys + (ids - keys);
    assert ids == (ids - keys) + (ids * keys);
  }

  lemma CountsExact(account: int, emails: map<string, Email>, messages: seq<Candidate>)
    ensures var c := Counts(emails, messages);
            && c.inserted == |Upsert(account, emails, messages)| - |emails|
            && c.inserted + c.updated == |Latest(messages)| <= |messages|
  {
    LatestIds(messages);
    SetCounts(emails.Keys, Latest(messages).Keys);
    assert Upsert(account, emails, messages).Keys == emails.Keys + Latest(messages).Keys;
    assert |Upsert(account, emails, messages)| == |Upsert(account, emails, messages).Keys|;
    assert |emails| == |emails.Keys|;
    assert |Latest(messages)| == |Latest(messages).Keys|;
  }

  /** The claim of the folder row; refused while a young SYNCING row exists. */
  function Begin(db: Db, startedAt: int): Result<Db> {
    var row := if db.state.Some? then db.state.value else SyncState(None, None, None, Idle, None);
    if row.status == Syncing && row.startedAt.Some? && startedAt - row.startedAt.value < SYNC_LEASE then
      Err("SYNC_IN_PROGRESS")
    else
      Ok(db.(state := Some(row.(startedAt := Some(startedAt), status := Syncing, errorCode := None))))
  }

  /** The row is SYNCING since less than ten minutes. */
  predicate LeaseHeld(db: Db, now: int) {
    db.state.Some? && db.state.value.status == Syncing && db.state.value.startedAt.Some? && now - db.state.value.startedAt.value < 600
  }

  /** A run is refused exactly while the row is SYNCING since less than 600 seconds; otherwise it claims
      the row and goes on from the stored cursor. */
  lemma BeginExactly(db: Db, now: int)
    ensures Begin(db, now).Err? <==> LeaseHeld(db, now)
    ensures !LeaseHeld(db, now) ==>
              var begun := Begin(db, now).value;
              && begun.emails == db.emails && Cursor(begun) == Cursor(db) && begun.state.Some?
              && begun.state.value.startedAt == Some(now) && begun.state.value.status == Syncing && begun.state.value.errorCode.None?
  {
  }

  /** The handled failures; the row stays absent when it is absent. */
  function Fail(db: Db, code: string, now: int): Db {
    if db.state.None? then db
    else db.(state := Some(db.state.value.(status := Failed, finishedAt := Some(now), errorCode := Some(code))))
  }

  function Invalidate(db: Db, code: string, now: int): Db {
    if db.state.None? then db
    else db.(state := Some(db.state.value.(cursor := None, status := Failed, finishedAt := Some(now), errorCode := Some(code))))
  }

  /** The manual cursor reset of `persistence/operations.py`. */
  function Reset(db: Db): Db {
    if db.state.None? then db
    else db.(state := Some(db.state.value.(cursor := None, status := Idle, errorCode := None)))
  }

  // ---------- One run ----------

  /** What a run keeps in memory between two fetches. */
  datatype Local = Local(cursor: Option<Link>, fetches: nat, observed: nat, inserted: nat, updated: nat, visited: set<Link>)

  /** A fetch that yields no page: an unusable delta token, any other failure, or the end of the process. */
  datatype Fault = NoFault | TokenRejected | FetchFailed(code: string) | Killed

  datatype Ending = Completed(deltaLink: Link) | Aborted(code: string) | Died

  datatype Turn = More(local: Local) | Ended(ending: Ending, local: Local)

  /** A fetched page whose messages would make the table `emails` and count as `counts`. */
  function PageStored(db: Db, emails: map<string, Email>, counts: Ingestion, l: Local, page: Page, now: int): (r: (Db, Turn))
    ensures r.1.local.fetches == l.fetches
  {
    var seen := l.(observed := l.observed + |page.messages|);
    var stored := seen.(inserted := l.inserted + counts.inserted, updated := l.updated + counts.updated);
    if page.nextLink.Some? then
      var next := page.nextLink.value;
      if next in l.visited then
        (Invalidate(db, "DELTA_STATE_INVALID", now), Ended(Aborted("DELTA_STATE_INVALID"), seen))
      else if db.state.None? then (db, Ended(Aborted("SYNC_UNEXPECTED"), seen))
      else
        (Db(emails, Some(db.state.value.(cursor := Some(next)))), More(stored.(cursor := Some(next), visited := l.visited + {next})))
    else if page.deltaLink.None? then
      (Invalidate(db, "DELTA_STATE_INVALID", now), Ended(Aborted("DELTA_STATE_INVALID"), seen))
    else if db.state.None? then (db, Ended(Aborted("SYNC_UNEXPECTED"), seen))
    else
      (Db(emails, Some(db.state.value.(cursor := page.deltaLink, finishedAt := Some(now), status := Succeeded, errorCode := None))),
       Ended(Completed(page.deltaLink.value), stored))
  }

  lemma NextStored(db: Db, emails: map<string, Email>, counts: Ingestion, l: Local, page: Page, now: int)
    requires page.nextLink.Some? && page.nextLink.value !in l.visited
    ensures PageStored(db, emails, counts, l, page, now)
         == if db.state.None? then (db, Ended(Aborted("SYNC_UNEXPECTED"), l.(observed := l.observed + |page.messages|)))
            else (Db(emails, Some(db.state.value.(cursor := page.nextLink))),
                  More(Local(page.nextLink, l.fetches, l.observed + |page.messages|,
                             l.inserted + counts.inserted, l.updated + counts.updated, l.visited + {page.nextLink.value})))
  {
  }

  /** One pass of the page loop: fetch, then one transaction. */
  function PageTurn(account: int, db: Db, l: Local, fault: Fault, page: Page, now: int): (r: (Db, Turn))
    ensures r.1.local.fetches == l.fetches + 1
  {
    var l' := l.(fetches := l.fetches + 1);
    match fault
    case TokenRejected => (Invalidate(db, "DELTA_STATE_INVALID", now), Ended(Aborted("DELTA_STATE_INVALID"), l'))
    case FetchFailed(code) => (Fail(db, code, now), Ended(Aborted(code), l'))
    case Killed => (db, Ended(Died, l'))
    case NoFault => PageStored(db, Upsert(account, db.emails, page.messages), Counts(db.emails, page.messages), l', page, now)
  }

  predicate FailedWith(db: Db, db': Db, cursor: Option<Link>, code: string, now: int)
    requires db.state.Some?
  {
    db' == Db(db.emails, Some(SyncState(cursor, db.state.value.startedAt, Some(now), Failed, Some(code))))
  }

  /** A rejected token, a cycle and a page without any link clear the cursor; any other failure keeps it,
      and a killed process leaves the row as it was. No email is touched. */
  lemma FailureExactly(account: int, db: Db, l: Local, fault: Fault, page: Page, now: int)
    requires db.state.Some?
    ensures var (db', turn) := PageTurn(account, db, l, fault, page, now);
            && (fault.TokenRejected? ==> FailedWith(db, db', None, "DELTA_STATE_INVALID", now))
            && (fault.FetchFailed? ==> FailedWith(db, db', Cursor(db), fault.code, now))
            && (fault.Killed? ==> db' == db && turn.Ended? && turn.ending.Died?)
            && (fault.NoFault? ==>
                  if page.nextLink.Some? then page.nextLink.value in l.visited ==> FailedWith(db, db', None, "DELTA_STATE_INVALID", now)
                  else page.deltaLink.None? ==> FailedWith(db, db', None, "DELTA_STATE_INVALID", now))
  {
  }

  /** A manual reset clears the cursor and frees the row; an exhausted budget keeps the cursor. */
  lemma ResetExactly(server: Server, fault: nat -> Fault, account: int, db: Db, l: Local, now: int)
    requires db.state.Some?
    ensures Reset(db) == Db(db.emails, Some(SyncState(None, db.state.value.startedAt, db.state.value.finishedAt, Idle, None)))
    ensures FailedWith(db, Pages(server, fault, l.fetches, account, db, l, now).0, Cursor(db), "SYNC_PAGE_LIMIT", now)
  {
  }

  type Server = Option<Link> -> Page

  function Pages(server: Server, fault: nat -> Fault, maxPages: nat, account: int, db: Db, l: Local, now: int): (Db, Ending, Local)
    decreases maxPages - l.fetches
  {
    if l.fetches >= maxPages then (Fail(db, "SYNC_PAGE_LIMIT", now), Aborted("SYNC_PAGE_LIMIT"), l)
    else
      var (db', turn) := PageTurn(account, db, l, fault(l.fetches), server(l.cursor), now);
      match turn
      case Ended(ending, l') => (db', ending, l')
      case More(l') => Pages(server, fault, maxPages, account, db', l', now)
  }

  function Fresh(cursor: Option<Link>): Local {
    Local(cursor, 0, 0, 0, 0, {})
  }

  /** One invocation of `synchronize`. */
  datatype Invocation = Invocation(startedAt: int, finishedAt: int, maxPages: nat, fault: nat -> Fault)

  function RunOnce(server: Server, account: int, db: Db, run: Invocation): (Db, Ending, Local) {
    match Begin(db, run.startedAt)
    case Err(code) => (db, Aborted(code), Fresh(None))
    case Ok(begun) => Pages(server, run.fault, run.maxPages, account, begun, Fresh(Cursor(begun)), run.finishedAt)
  }

  // ---------- Bounds, cycles and counts ----------

  /** A handled outcome never leaves the folder SYNCING, and the table only grows. */
  predicate Closed(db: Db, db': Db, ending: Ending) {
    && db'.state.Some? && db.emails.Keys <= db'.emails.Keys
    && (ending.Completed? ==> db'.state.value.status == Succeeded && Cursor(db') == Some(ending.deltaLink))
    && (ending.Aborted? ==> db'.state.value.status == Failed && db'.state.value.errorCode == Some(ending.code))
  }

  lemma TurnBounded(account: int, db: Db, l: Local, fault: Fault, page: Page, now: int)
    requires db.state.Some?
    ensures var (db', turn) := PageTurn(account, db, l, fault, page, now);
            if turn.More? then db'.state.Some? && db.emails.Keys <= db'.emails.Keys else Closed(db, db', turn.ending)
  {
    if fault.NoFault? {
      UpsertStores(account, db.emails, page.messages);
      StoredBounded(db, Upsert(account, db.emails, page.messages), Counts(db.emails, page.messages), l.(fetches := l.fetches + 1), page, now);
    }
  }

  lemma StoredBounded(db: Db, emails: map<string, Email>, counts: Ingestion, l: Local, page: Page, now: int)
    requires db.state.Some? && db.emails.Keys <= emails.Keys
    ensures var (db', turn) := PageStored(db, emails, counts, l, page, now);
            if turn.More? then db'.state.Some? && db.emails.Keys <= db'.emails.Keys else Closed(db, db', turn.ending)
  {
  }

  /** A run fetches at most `maxPages` pages. */
  lemma {:induction false} RunBounded(server: Server, fault: nat -> Fault, maxPages: nat, account: int, db: Db, l: Local, now: int)
    requires db.state.Some? && l.fetches <= maxPages
    ensures var (db', ending, l') := Pages(server, fault, maxPages, account, db, l, now);
            l'.fetches <= maxPages && Closed(db, db', ending)
    decreases maxPages - l.fetches
  {
    if l.fetches < maxPages {
      var (db', turn) := PageTurn(account, db, l, fault(l.fetches), server(l.cursor), now);
      TurnBounded(account, db, l, fault(l.fetches), server(l.cursor), now);
      if turn.More? { RunBounded(server, fault, maxPages, account, db', turn.local, now); }
    }
  }

  /** `links` are the continuation links met from cursor `c`, one fetch each. */
  predicate Follows(server: Server, c: Option<Link>, links: seq<Link>)
    decreases |links|
  {
    links == [] || (server(c).nextLink == Some(links[0]) && Follows(server, Some(links[0]), links[1..]))
  }

  /** When `k` fresh continuation links are followed by one already met, the run stops at
      fetch `k + 1` and clears the cursor. */
  lemma {:induction false} CycleStops(server: Server, fault: nat -> Fault, maxPages: nat, account: int, db: Db, l: Local,
                                      links: seq<Link>, repeated: Link, now: int)
    requires db.state.Some? && l.fetches + |links| < maxPages
    requires Follows(server, l.cursor, links + [repeated])
    requires forall i, j :: 0 <= i < j < |links| ==> links[i] != links[j]
    requires forall i :: 0 <= i < |links| ==> links[i] !in l.visited
    requires repeated in l.visited || repeated in links
    requires forall i :: l.fetches <= i <= l.fetches + |links| ==> fault(i) == NoFault
    ensures var (db', ending, l') := Pages(server, fault, maxPages, account, db, l, now);
            && ending == Aborted("DELTA_STATE_INVALID") && l'.fetches == l.fetches + |links| + 1
            && Cursor(db') == None && db'.state.Some? && db'.state.value.status == Failed
    decreases |links|
  {
    if links != [] {
      var (db', turn) := PageTurn(account, db, l, NoFault, server(l.cursor), now);
      assert (links + [repeated])[1..] == links[1..] + [repeated];
      assert turn.More? && turn.local.visited == l.visited + {links[0]};
      assert repeated in turn.local.visited || repeated in links[1..];
      CycleStops(server, fault, maxPages, account, db', turn.local, links[1..], repeated, now);
    }
  }

  /** Distinct message ids, summed over the `n` pages from cursor `c` on. */
  function DistinctIds(server: Server, c: Option<Link>, n: nat): nat
    decreases n
  {
    if n == 0 then 0 else |Latest(server(c).messages)| + DistinctIds(server, server(c).nextLink, n - 1)
  }

  predicate Stores(turn: Turn) {
    turn.More? || turn.ending.Completed?
  }

  lemma TurnStores(account: int, db: Db, l: Local, fault: Fault, page: Page, now: int)
    requires Stores(PageTurn(account, db, l, fault, page, now).1)
    ensures var (db', turn) := PageTurn(account, db, l, fault, page, now);
            && db'.emails == Upsert(account, db.emails, page.messages) && Some(Cursor(db')) == Successor(page)
            && (turn.More? ==> turn.local.cursor == Cursor(db'))
  {
  }

  lemma TurnSkips(account: int, db: Db, l: Local, fault: Fault, page: Page, now: int)
    requires !Stores(PageTurn(account, db, l, fault, page, now).1)
    ensures var db' := PageTurn(account, db, l, fault, page, now).0;
            db'.emails == db.emails && (Cursor(db') == None || Cursor(db') == Cursor(db))
  {
  }

  lemma TurnCounts(account: int, db: Db, l: Local, fault: Fault, page: Page, now: int)
    requires Stores(PageTurn(account, db, l, fault, page, now).1)
    ensures var turn, counts := PageTurn(account, db, l, fault, page, now).1, Counts(db.emails, page.messages);
            && turn.local.inserted - l.inserted == counts.inserted && turn.local.updated - l.updated == counts.updated
            && turn.local.observed - l.observed == |page.messages|
            && (turn.More? ==> turn.local.cursor == page.nextLink)
  {
  }

  /** The counters of a completed run without interference: inserted is the growth of the email
      table, inserted plus updated is the sum of distinct ids per page, at most observed. */
  lemma {:induction false} CountersExact(server: Server, fault: nat -> Fault, maxPages: nat, account: int, db: Db, l: Local, now: int, n: nat)
    requires Pages(server, fault, maxPages, account, db, l, now).1.Completed?
    requires Pages(server, fault, maxPages, account, db, l, now).2.fetches == l.fetches + n
    ensures var (db', _, l') := Pages(server, fault, maxPages, account, db, l, now);
            && l'.inserted - l.inserted == |db'.emails| - |db.emails|
            && (l'.inserted + l'.updated) - (l.inserted + l.updated) == DistinctIds(server, l.cursor, n)
            && DistinctIds(server, l.cursor, n) <= l'.observed - l.observed
    decreases maxPages - l.fetches
  {
    var page := server(l.cursor);
    var (db', turn) := PageTurn(account, db, l, fault(l.fetches), page, now);
    if turn.More? {
      FetchesGrow(server, fault, maxPages, account, db', turn.local, now);
      CountersExact(server, fault, maxPages, account, db', turn.local, now, n - 1);
    }
    PageCounted(account, db, l, fault(l.fetches), page, now);
    assert DistinctIds(server, l.cursor, n) == |Latest(page.messages)| + DistinctIds(server, page.nextLink, n - 1);
  }

  lemma PageCounted(account: int, db: Db, l: Local, fault: Fault, page: Page, now: int)
    requires Stores(PageTurn(account, db, l, fault, page, now).1)
    ensures var (db', turn) := PageTurn(account, db, l, fault, page, now);
            && turn.local.inserted - l.inserted == |db'.emails| - |db.emails|
            && (turn.local.inserted + turn.local.updated) - (l.inserted + l.updated) == |Latest(page.messages)| <= |page.messages|
            && turn.local.observed - l.observed == |page.messages| && (turn.More? ==> turn.local.cursor == page.nextLink)
  {
    TurnStores(account, db, l, fault, page, now);
    TurnCounts(account, db, l, fault, page, now);
    CountsExact(account, db.emails, page.messages);
  }

  lemma {:induction false} FetchesGrow(server: Server, fault: nat -> Fault, maxPages: nat, account: int, db: Db, l: Local, now: int)
    ensures Pages(server, fault, maxPages, account, db, l, now).2.fetches >= l.fetches
    decreases maxPages - l.fetches
  {
    if l.fetches < maxPages {
      var (db', turn) := PageTurn(account, db, l, fault(l.fetches), server(l.cursor), now);
      if turn.More? { FetchesGrow(server, fault, maxPages, account, db', turn.local, now); }
    }
  }

  // ---------- Resuming refines one uninterrupted pass ----------

  function At(links: seq<Link>, i: nat): Option<Link>
    requires i <= |links|
  {
    if i == 0 then None else Some(links[i - 1])
  }

  /** The page fetched at position `i` of an enumeration. */
  ghost predicate PageAt(server: Server, batches: seq<seq<Candidate>>, links: seq<Link>, delta: Link, i: nat)
    requires |batches| == |links| + 1 && i <= |links|
  {
    var page := server(At(links, i));
    && page.messages == batches[i]
    && (if i < |links| then page.nextLink == Some(links[i]) else page.nextLink == None && page.deltaLink == Some(delta))
  }

  /** The server's enumeration from the empty cursor: `batches`, joined by fresh `links`, closed by `delta`. */
  ghost predicate Chain(server: Server, batches: seq<seq<Candidate>>, links: seq<Link>, delta: Link) {
    && |batches| == |links| + 1
    && (forall i, j :: 0 <= i < j < |links| ==> links[i] != links[j])
    && (forall i :: 0 <= i <= |links| ==> PageAt(server, batches, links, delta, i))
  }

  /** Finishing the enumeration from position `i`, or from the start, gives `goal`. */
  ghost predicate Resumable(account: int, emails: map<string, Email>, batches: seq<seq<Candidate>>, i: nat, goal: map<string, Email>) {
    && i < |batches|
    && UpsertAll(account, emails, batches[i..]) == goal
    && UpsertAll(account, emails, batches) == goal
  }

  lemma ResumeNext(account: int, emails: map<string, Email>, batches: seq<seq<Candidate>>, i: nat, goal: map<string, Email>)
    requires Resumable(account, emails, batches, i, goal)
    ensures var next := Upsert(account, emails, batches[i]);
            if i + 1 < |batches| then Resumable(account, next, batches, i + 1, goal) else next == goal
  {
    assert batches[i..][1..] == batches[i + 1..];
    Absorb(account, emails, batches, i);
  }

  /** A property of the stored emails at a position of the enumeration. */
  type Progress = (map<string, Email>, nat) -> bool

  ghost function ResumableTo(account: int, batches: seq<seq<Candidate>>, goal: map<string, Email>): Progress {
    (emails: map<string, Email>, i: nat) => Resumable(account, emails, batches, i, goal)
  }

  /** `ok` may restart from page 0, is handed on by page `i`, and yields `goal` after the last page. */
  ghost predicate HandsOn(account: int, batches: seq<seq<Candidate>>, goal: map<string, Email>, ok: Progress, emails: map<string, Email>, i: nat) {
    ok(emails, i) ==>
      && i < |batches| && ok(emails, 0)
      && if i + 1 < |batches| then ok(Upsert(account, emails, batches[i]), i + 1) else Upsert(account, emails, batches[i]) == goal
  }

  ghost predicate Carries(account: int, batches: seq<seq<Candidate>>, goal: map<string, Email>, ok: Progress) {
    forall emails, i: nat :: HandsOn(account, batches, goal, ok, emails, i)
  }

  lemma ResumableCarries(account: int, batches: seq<seq<Candidate>>, goal: map<string, Email>)
    ensures Carries(account, batches, goal, ResumableTo(account, batches, goal))
  {
    var ok := ResumableTo(account, batches, goal);
    forall emails, i: nat ensures HandsOn(account, batches, goal, ok, emails, i) {
      if Resumable(account, emails, batches, i, goal) {
        assert batches[0..] == batches;
        ResumeNext(account, emails, batches, i, goal);
      }
    }
  }

  ghost predicate Finished(db: Db, delta: Link, goal: map<string, Email>) {
    db.emails == goal && Cursor(db) == Some(delta)
  }

  /** A folder between two runs of an enumeration that is not finished: the next run goes on at page `i`. */
  ghost predicate UnfinishedAt(db: Db, links: seq<Link>, ok: Progress, i: nat) {
    i <= |links| && Cursor(db) == At(links, i) && ok(db.emails, i)
  }

  ghost predicate Unfinished(db: Db, links: seq<Link>, ok: Progress) {
    exists i: nat :: UnfinishedAt(db, links, ok, i)
  }

  /** A run is about to fetch page `i` of the enumeration. */
  ghost predicate Positioned(db: Db, l: Local, links: seq<Link>, ok: Progress, i: nat) {
    && UnfinishedAt(db, links, ok, i) && db.state.Some? && Cursor(db) == l.cursor
    && forall k :: i <= k < |links| ==> links[k] !in l.visited
  }

  ghost predicate Resumed(db: Db, completed: bool, links: seq<Link>, delta: Link, goal: map<string, Email>, ok: Progress, j: nat) {
    if completed then Finished(db, delta, goal) else UnfinishedAt(db, links, ok, j)
  }

  /** One page of the run: the next one follows, or the run ends at page `j`. */
  lemma TurnResumes(server: Server, account: int, db: Db, l: Local, fault: Fault, now: int,
                    batches: seq<seq<Candidate>>, links: seq<Link>, delta: Link, goal: map<string, Email>, ok: Progress, i: nat) returns (j: nat)
    requires Chain(server, batches, links, delta) && Carries(account, batches, goal, ok)
    requires Positioned(db, l, links, ok, i)
    ensures var (db', turn) := PageTurn(account, db, l, fault, server(l.cursor), now);
            match turn
            case More(l') => fault.NoFault? && i < |links| && l'.fetches == l.fetches + 1 && Positioned(db', l', links, ok, i + 1)
            case Ended(ending, _) =>
              (fault.NoFault? ==> ending.Completed?) && Resumed(db', ending.Completed?, links, delta, goal, ok, j)
  {
    assert PageAt(server, batches, links, delta, i);
    assert HandsOn(account, batches, goal, ok, db.emails, i);
    j := if fault.TokenRejected? then 0 else i;
  }

  lemma {:induction false} PagesResume(server: Server, fault: nat -> Fault, maxPages: nat, account: int, db: Db, l: Local, now: int,
                                       batches: seq<seq<Candidate>>, links: seq<Link>, delta: Link, goal: map<string, Email>, ok: Progress, i: nat)
    returns (j: nat)
    requires Chain(server, batches, links, delta) && Carries(account, batches, goal, ok)
    requires Positioned(db, l, links, ok, i)
    ensures var (db', ending, _) := Pages(server, fault, maxPages, account, db, l, now);
            Resumed(db', ending.Completed?, links, delta, goal, ok, j)
    decreases maxPages - l.fetches
  {
    j := i;
    if l.fetches < maxPages {
      var (db', turn) := PageTurn(account, db, l, fault(l.fetches), server(l.cursor), now);
      j := TurnResumes(server, account, db, l, fault(l.fetches), now, batches, links, delta, goal, ok, i);
      if turn.More? {
        j := PagesResume(server, fault, maxPages, account, db', turn.local, now, batches, links, delta, goal, ok, i + 1);
      }
    }
  }

  /** Without faults and within its budget a run completes. */
  lemma {:induction false} PagesComplete(server: Server, fault: nat -> Fault, maxPages: nat, account: int, db: Db, l: Local, now: int,
                                         batches: seq<seq<Candidate>>, links: seq<Link>, delta: Link, goal: map<string, Email>, ok: Progress, i: nat)
    requires Chain(server, batches, links, delta) && Carries(account, batches, goal, ok)
    requires Positioned(db, l, links, ok, i)
    requires forall k :: fault(k) == NoFault
    requires l.fetches + |batches| - i <= maxPages
    ensures Pages(server, fault, maxPages, account, db, l, now).1.Completed?
    decreases maxPages - l.fetches
  {
    var (db', turn) := PageTurn(account, db, l, fault(l.fetches), server(l.cursor), now);
    var j := TurnResumes(server, account, db, l, fault(l.fetches), now, batches, links, delta, goal, ok, i);
    if turn.More? {
      PagesComplete(server, fault, maxPages, account, db', turn.local, now, batches, links, delta, goal, ok, i + 1);
    }
  }

  /** Without faults but with too small a budget, a run ends exactly as many pages further as it may fetch. */
  lemma {:induction false} PagesAdvance(server: Server, fault: nat -> Fault, maxPages: nat, account: int, db: Db, l: Local, now: int,
                                        batches: seq<seq<Candidate>>, links: seq<Link>, delta: Link, goal: map<string, Email>, ok: Progress, i: nat, j: nat)
    requires Chain(server, batches, links, delta) && Carries(account, batches, goal, ok)
    requires Positioned(db, l, links, ok, i)
    requires forall k :: fault(k) == NoFault
    requires i <= j < |batches| && maxPages - l.fetches == j - i
    ensures var (db', ending, _) := Pages(server, fault, maxPages, account, db, l, now);
            ending == Aborted("SYNC_PAGE_LIMIT") && UnfinishedAt(db', links, ok, j)
    decreases maxPages - l.fetches
  {
    if l.fetches < maxPages {
      var (db', turn) := PageTurn(account, db, l, NoFault, server(l.cursor), now);
      TurnAdvances(server, account, db, l, now, batches, links, delta, goal, ok, i, db', turn);
      PagesAdvance(server, fault, maxPages, account, db', turn.local, now, batches, links, delta, goal, ok, i + 1, j);
    }
  }

  lemma TurnAdvances(server: Server, account: int, db: Db, l: Local, now: int, batches: seq<seq<Candidate>>, links: seq<Link>,
                     delta: Link, goal: map<string, Email>, ok: Progress, i: nat, db': Db, turn: Turn)
    requires Chain(server, batches, links, delta) && Carries(account, batches, goal, ok)
    requires Positioned(db, l, links, ok, i) && i < |links| && (db', turn) == PageTurn(account, db, l, NoFault, server(l.cursor), now)
    ensures turn.More? && turn.local.fetches == l.fetches + 1 && Positioned(db', turn.local, links, ok, i + 1)
  {
    assert PageAt(server, batches, links, delta, i);
    var j := TurnResumes(server, account, db, l, NoFault, now, batches, links, delta, goal, ok, i);
  }

  lemma RunResumes(server: Server, account: int, db: Db, run: Invocation,
                   batches: seq<seq<Candidate>>, links: seq<Link>, delta: Link, goal: map<string, Email>, ok: Progress)
    requires Chain(server, batches, links, delta) && Carries(account, batches, goal, ok) && Unfinished(db, links, ok)
    ensures var (db', ending, _) := RunOnce(server, account, db, run);
            if ending.Completed? then Finished(db', delta, goal) else Unfinished(db', links, ok)
  {
    var i: nat :| UnfinishedAt(db, links, ok, i);
    var begun := Begin(db, run.startedAt);
    if begun.Ok? {
      var j := PagesResume(server, run.fault, run.maxPages, account, begun.value, Fresh(Cursor(db)), run.finishedAt,
                           batches, links, delta, goal, ok, i);
    }
  }

  /** Some runs that do not complete, one after the other. */
  ghost predicate CutShort(server: Server, account: int, db: Db, runs: seq<Invocation>, db': Db)
    decreases |runs|
  {
    if runs == [] then db' == db
    else
      var (next, ending, _) := RunOnce(server, account, db, runs[0]);
      !ending.Completed? && CutShort(server, account, next, runs[1..], db')
  }

  lemma {:induction false} CutShortUnfinished(server: Server, account: int, db: Db, runs: seq<Invocation>, db': Db,
                                              batches: seq<seq<Candidate>>, links: seq<Link>, delta: Link, goal: map<string, Email>, ok: Progress)
    requires Chain(server, batches, links, delta) && Carries(account, batches, goal, ok) && Unfinished(db, links, ok)
    requires CutShort(server, account, db, runs, db')
    ensures Unfinished(db', links, ok)
    decreases |runs|
  {
    if runs != [] {
      RunResumes(server, account, db, runs[0], batches, links, delta, goal, ok);
      CutShortUnfinished(server, account, RunOnce(server, account, db, runs[0]).0, runs[1..], db', batches, links, delta, goal, ok);
    }
  }

  /** Any runs cut short by refusals, failures, crashes, page budgets or cursor invalidations and
      then one completed run leave the emails and the cursor of one uninterrupted run. */
  lemma ResumeRefinesOnePass(server: Server, account: int, db: Db, runs: seq<Invocation>, cut: Db, last: Invocation, clean: Invocation,
                             batches: seq<seq<Candidate>>, links: seq<Link>, delta: Link)
    requires Chain(server, batches, links, delta) && Cursor(db) == None
    requires CutShort(server, account, db, runs, cut)
    requires RunOnce(server, account, cut, last).1.Completed?
    requires Begin(db, clean.startedAt).Ok? && clean.maxPages >= |batches| && forall k :: clean.fault(k) == NoFault
    ensures var resumed := RunOnce(server, account, cut, last).0;
            var oneRun := RunOnce(server, account, db, clean).0;
            && resumed.emails == oneRun.emails == UpsertAll(account, db.emails, batches)
            && Cursor(resumed) == Cursor(oneRun) == Some(delta)
            && RunOnce(server, account, db, clean).1 == Completed(delta)
  {
    var goal := UpsertAll(account, db.emails, batches);
    var ok := ResumableTo(account, batches, goal);
    ResumableCarries(account, batches, goal);
    assert batches[0..] == batches;
    assert ok(db.emails, 0);
    RefinesOnePass(server, account, db, runs, cut, last, clean, batches, links, delta, goal, ok);
  }

  lemma RefinesOnePass(server: Server, account: int, db: Db, runs: seq<Invocation>, cut: Db, last: Invocation, clean: Invocation,
                       batches: seq<seq<Candidate>>, links: seq<Link>, delta: Link, goal: map<string, Email>, ok: Progress)
    requires Chain(server, batches, links, delta) && Carries(account, batches, goal, ok) && Cursor(db) == None && ok(db.emails, 0)
    requires CutShort(server, account, db, runs, cut)
    requires RunOnce(server, account, cut, last).1.Completed?
    requires Begin(db, clean.startedAt).Ok? && clean.maxPages >= |batches| && forall k :: clean.fault(k) == NoFault
    ensures Finished(RunOnce(server, account, cut, last).0, delta, goal)
    ensures Finished(RunOnce(server, account, db, clean).0, delta, goal)
    ensures RunOnce(server, account, db, clean).1 == Completed(delta)
  {
    assert UnfinishedAt(db, links, ok, 0);
    CutShortUnfinished(server, account, db, runs, cut, batches, links, delta, goal, ok);
    RunResumes(server, account, cut, last, batches, links, delta, goal, ok);
    RunResumes(server, account, db, clean, batches, links, delta, goal, ok);
    var begun := Begin(db, clean.startedAt).value;
    PagesComplete(server, clean.fault, clean.maxPages, account, begun, Fresh(None), clean.finishedAt, batches, links, delta, goal, ok, 0);
    RunBounded(server, clean.fault, clean.maxPages, account, begun, Fresh(None), clean.finishedAt);
  }

  // ---------- Progress ----------

  /** At least ten minutes after the last claim of the folder, by the row or by any of these runs. */
  predicate AfterClaims(db: Db, runs: seq<Invocation>, now: int) {
    && (db.state.Some? && db.state.value.startedAt.Some? ==> now - db.state.value.startedAt.value >= 600)
    && forall i :: 0 <= i < |runs| ==> now - runs[i].startedAt >= 600
  }

  lemma TurnKeepsStart(account: int, db: Db, l: Local, fault: Fault, page: Page, now: int)
    requires db.state.Some?
    ensures var db' := PageTurn(account, db, l, fault, page, now).0;
            db'.state.Some? && db'.state.value.startedAt == db.state.value.startedAt
  {
  }

  lemma {:induction false} PagesKeepStart(server: Server, fault: nat -> Fault, maxPages: nat, account: int, db: Db, l: Local, now: int)
    requires db.state.Some?
    ensures var db' := Pages(server, fault, maxPages, account, db, l, now).0;
            db'.state.Some? && db'.state.value.startedAt == db.state.value.startedAt
    decreases maxPages - l.fetches
  {
    if l.fetches < maxPages {
      var (db', turn) := PageTurn(account, db, l, fault(l.fetches), server(l.cursor), now);
      TurnKeepsStart(account, db, l, fault(l.fetches), server(l.cursor), now);
      if turn.More? { PagesKeepStart(server, fault, maxPages, account, db', turn.local, now); }
    }
  }

  lemma {:induction false} CutShortClaims(server: Server, account: int, db: Db, runs: seq<Invocation>, db': Db, now: int)
    requires CutShort(server, account, db, runs, db') && AfterClaims(db, runs, now)
    ensures AfterClaims(db', [], now)
    decreases |runs|
  {
    if runs != [] {
      var next := RunOnce(server, account, db, runs[0]).0;
      RunClaims(server, account, db, runs[0], now);
      CutShortClaims(server, account, next, runs[1..], db', now);
    }
  }

  lemma RunClaims(server: Server, account: int, db: Db, run: Invocation, now: int)
    requires AfterClaims(db, [run], now)
    ensures AfterClaims(RunOnce(server, account, db, run).0, [], now)
  {
    assert [run][0] == run;
    var begun := Begin(db, run.startedAt);
    if begun.Ok? { PagesKeepStart(server, run.fault, run.maxPages, account, begun.value, Fresh(Cursor(begun.value)), run.finishedAt); }
  }

  /** After any runs cut short, crashes included: a run without faults that starts ten minutes after the
      last claim, and may fetch as many pages as there are, completes, as one pass from the start would. */
  lemma ResumeCompletes(server: Server, account: int, db: Db, runs: seq<Invocation>, cut: Db, last: Invocation,
                        batches: seq<seq<Candidate>>, links: seq<Link>, delta: Link)
    requires Chain(server, batches, links, delta) && Cursor(db) == None
    requires CutShort(server, account, db, runs, cut)
    requires AfterClaims(db, runs, last.startedAt) && last.maxPages >= |batches| && forall k :: last.fault(k) == NoFault
    ensures var (end, ending, _) := RunOnce(server, account, cut, last);
            && ending == Completed(delta) && end.emails == UpsertAll(account, db.emails, batches) && Cursor(end) == Some(delta)
  {
    var goal := UpsertAll(account, db.emails, batches);
    var ok := ResumableTo(account, batches, goal);
    ResumableCarries(account, batches, goal);
    assert batches[0..] == batches;
    assert UnfinishedAt(db, links, ok, 0);
    CutShortUnfinished(server, account, db, runs, cut, batches, links, delta, goal, ok);
    CutShortClaims(server, account, db, runs, cut, last.startedAt);
    RunCompletes(server, account, cut, last, batches, links, delta, goal, ok);
  }

  lemma RunCompletes(server: Server, account: int, db: Db, run: Invocation,
                     batches: seq<seq<Candidate>>, links: seq<Link>, delta: Link, goal: map<string, Email>, ok: Progress)
    requires Chain(server, batches, links, delta) && Carries(account, batches, goal, ok) && Unfinished(db, links, ok)
    requires AfterClaims(db, [], run.startedAt) && run.maxPages >= |batches| && forall k :: run.fault(k) == NoFault
    ensures var (end, ending, _) := RunOnce(server, account, db, run);
            ending == Completed(delta) && Finished(end, delta, goal)
  {
    var i: nat :| UnfinishedAt(db, links, ok, i);
    BeginExactly(db, run.startedAt);
    var begun := Begin(db, run.startedAt).value;
    PagesComplete(server, run.fault, run.maxPages, account, begun, Fresh(Cursor(begun)), run.finishedAt, batches, links, delta, goal, ok, i);
    RunBounded(server, run.fault, run.maxPages, account, begun, Fresh(Cursor(begun)), run.finishedAt);
    RunResumes(server, account, db, run, batches, links, delta, goal, ok);
  }

  function Budget(runs: seq<Invocation>): nat
    decreases |runs|
  {
    if runs == [] then 0 else runs[0].maxPages + Budget(runs[1..])
  }

  ghost predicate OnlyBudget(server: Server, account: int, db: Db, run: Invocation) {
    Begin(db, run.startedAt).Ok? && (forall k :: run.fault(k) == NoFault) && !RunOnce(server, account, db, run).1.Completed?
  }

  /** Runs that are not refused and meet no fault, and still do not complete. */
  ghost predicate OnlyBudgets(server: Server, account: int, db: Db, runs: seq<Invocation>, db': Db)
    decreases |runs|
  {
    if runs == [] then db' == db
    else
      OnlyBudget(server, account, db, runs[0]) && OnlyBudgets(server, account, RunOnce(server, account, db, runs[0]).0, runs[1..], db')
  }

  /** Small budgets add up: such runs stand exactly as many pages on as they may fetch together, so
      together they may fetch fewer than there are. */
  lemma BudgetsAddUp(server: Server, account: int, db: Db, runs: seq<Invocation>, cut: Db,
                     batches: seq<seq<Candidate>>, links: seq<Link>, delta: Link)
    requires Chain(server, batches, links, delta) && Cursor(db) == None && OnlyBudgets(server, account, db, runs, cut)
    ensures Budget(runs) < |batches| && Cursor(cut) == At(links, Budget(runs))
  {
    var goal := UpsertAll(account, db.emails, batches);
    var ok := ResumableTo(account, batches, goal);
    ResumableCarries(account, batches, goal);
    assert batches[0..] == batches;
    assert ok(db.emails, 0);
    BudgetsFromStart(server, account, db, runs, cut, batches, links, delta, goal, ok);
  }

  lemma BudgetsFromStart(server: Server, account: int, db: Db, runs: seq<Invocation>, cut: Db, batches: seq<seq<Candidate>>,
                         links: seq<Link>, delta: Link, goal: map<string, Email>, ok: Progress)
    requires Chain(server, batches, links, delta) && Carries(account, batches, goal, ok) && Cursor(db) == None && ok(db.emails, 0)
    requires OnlyBudgets(server, account, db, runs, cut)
    ensures Budget(runs) < |batches| && Cursor(cut) == At(links, Budget(runs))
  {
    BudgetsAdvance(server, account, db, runs, cut, batches, links, delta, goal, ok, 0, Budget(runs));
  }

  lemma {:induction false} BudgetsAdvance(server: Server, account: int, db: Db, runs: seq<Invocation>, cut: Db, batches: seq<seq<Candidate>>,
                                          links: seq<Link>, delta: Link, goal: map<string, Email>, ok: Progress, i: nat, j: nat)
    requires Chain(server, batches, links, delta) && Carries(account, batches, goal, ok) && UnfinishedAt(db, links, ok, i)
    requires OnlyBudgets(server, account, db, runs, cut) && j == i + Budget(runs)
    ensures UnfinishedAt(cut, links, ok, j)
    decreases |runs|
  {
    if runs != [] {
      var next := RunOnce(server, account, db, runs[0]).0;
      RunAdvances(server, account, db, runs[0], batches, links, delta, goal, ok, i, next);
      BudgetsAdvance(server, account, next, runs[1..], cut, batches, links, delta, goal, ok, i + runs[0].maxPages, j);
    }
  }

  lemma RunAdvances(server: Server, account: int, db: Db, run: Invocation, batches: seq<seq<Candidate>>,
                    links: seq<Link>, delta: Link, goal: map<string, Email>, ok: Progress, i: nat, next: Db)
    requires Chain(server, batches, links, delta) && Carries(account, batches, goal, ok) && UnfinishedAt(db, links, ok, i)
    requires OnlyBudget(server, account, db, run) && next == RunOnce(server, account, db, run).0
    ensures i + run.maxPages < |batches| && UnfinishedAt(next, links, ok, i + run.maxPages)
  {
    BeginExactly(db, run.startedAt);
    var begun := Begin(db, run.startedAt).value;
    BegunAdvances(server, account, begun, run, Fresh(Cursor(begun)), batches, links, delta, goal, ok, i);
  }

  lemma BegunAdvances(server: Server, account: int, db: Db, run: Invocation, l: Local, batches: seq<seq<Candidate>>,
                      links: seq<Link>, delta: Link, goal: map<string, Email>, ok: Progress, i: nat)
    requires Chain(server, batches, links, delta) && Carries(account, batches, goal, ok) && Positioned(db, l, links, ok, i)
    requires (forall k :: run.fault(k) == NoFault) && l.fetches == 0
    requires !Pages(server, run.fault, run.maxPages, account, db, l, run.finishedAt).1.Completed?
    ensures i + run.maxPages < |batches|
    ensures UnfinishedAt(Pages(server, run.fault, run.maxPages, account, db, l, run.finishedAt).0, links, ok, i + run.maxPages)
  {
    if run.maxPages >= |batches| - i {
      PagesComplete(server, run.fault, run.maxPages, account, db, l, run.finishedAt, batches, links, delta, goal, ok, i);
    } else {
      PagesAdvance(server, run.fault, run.maxPages, account, db, l, run.finishedAt, batches, links, delta, goal, ok, i, i + run.maxPages);
    }
  }

  // ---------- Overlapping runs ----------

  /** The cursor after `n` pages of the server's enumeration from the empty cursor. */
  function Trail(server: Server, n: nat): Option<Option<Link>> {
    if n == 0 then Some(None)
    else if Trail(server, n - 1).None? then None
    else Successor(server(Trail(server, n - 1).value))
  }

  function Successor(page: Page): Option<Option<Link>> {
    if page.nextLink.Some? then Some(page.nextLink) else if page.deltaLink.Some? then Some(page.deltaLink) else None
  }

  ghost predicate Behind(server: Server, emails: map<string, Email>, c: Option<Link>, n: nat) {
    && Trail(server, n) == Some(c)
    && forall i :: 0 <= i < n ==> Trail(server, i).Some? && HasAll(emails, server(Trail(server, i).value).messages)
  }

  /** Every message of every page before `c` is stored. */
  ghost predicate Covered(server: Server, emails: map<string, Email>, c: Option<Link>) {
    exists n: nat :: Behind(server, emails, c, n)
  }

  lemma CoveredGrows(server: Server, emails: map<string, Email>, more: map<string, Email>, c: Option<Link>)
    requires Covered(server, emails, c) && emails.Keys <= more.Keys
    ensures Covered(server, more, c)
  {
    var n: nat :| Behind(server, emails, c, n);
    assert Behind(server, more, c, n);
  }

  lemma CoveredNext(server: Server, emails: map<string, Email>, c: Option<Link>)
    requires Covered(server, emails, c) && HasAll(emails, server(c).messages) && Successor(server(c)).Some?
    ensures Covered(server, emails, Successor(server(c)).value)
  {
    var n: nat :| Behind(server, emails, c, n);
    assert Behind(server, emails, Successor(server(c)).value, n + 1);
  }

  /** Any number of runs at once, each with its own budget. */
  datatype System = System(db: Db, live: map<int, Live>)

  datatype Live = Live(local: Local, maxPages: nat)

  datatype Event =
    | Start(run: int, now: int, maxPages: nat)
    | Advance(run: int, fault: Fault, now: int)
    | Vanish(run: int)
    | ManualReset

  function Step(server: Server, account: int, s: System, e: Event): System {
    match e
    case Start(r, now, maxPages) =>
      if r in s.live || Begin(s.db, now).Err? then s
      else
        var begun := Begin(s.db, now).value;
        System(begun, s.live[r := Live(Fresh(Cursor(begun)), maxPages)])
    case Advance(r, fault, now) =>
      if r !in s.live then s
      else
        var l := s.live[r].local;
        if l.fetches >= s.live[r].maxPages then System(Fail(s.db, "SYNC_PAGE_LIMIT", now), s.live - {r})
        else
          var (db', turn) := PageTurn(account, s.db, l, fault, server(l.cursor), now);
          System(db', if turn.More? then s.live[r := Live(turn.local, s.live[r].maxPages)] else s.live - {r})
    case Vanish(r) => s.(live := s.live - {r})
    case ManualReset => s.(db := Reset(s.db))
  }

  function Run(server: Server, account: int, s: System, events: seq<Event>): System
    decreases |events|
  {
    if events == [] then s else Run(server, account, Step(server, account, s, events[0]), events[1..])
  }

  ghost predicate Safe(server: Server, s: System) {
    && Covered(server, s.db.emails, Cursor(s.db))
    && forall r :: r in s.live ==> Covered(server, s.db.emails, s.live[r].local.cursor)
  }

  lemma StartCovered(server: Server, emails: map<string, Email>)
    ensures Covered(server, emails, None)
  {
    assert Behind(server, emails, None, 0);
  }

  lemma TurnCovered(server: Server, account: int, db: Db, l: Local, fault: Fault, now: int)
    requires Covered(server, db.emails, Cursor(db)) && Covered(server, db.emails, l.cursor)
    ensures var (db', turn) := PageTurn(account, db, l, fault, server(l.cursor), now);
            && db.emails.Keys <= db'.emails.Keys
            && Covered(server, db'.emails, Cursor(db'))
            && (turn.More? ==> Covered(server, db'.emails, turn.local.cursor))
  {
    var page := server(l.cursor);
    var (db', turn) := PageTurn(account, db, l, fault, page, now);
    if Stores(turn) {
      TurnStores(account, db, l, fault, page, now);
      UpsertStores(account, db.emails, page.messages);
      StoredCovered(server, db.emails, db'.emails, l.cursor);
    } else {
      TurnSkips(account, db, l, fault, page, now);
      StartCovered(server, db'.emails);
    }
  }

  lemma StoredCovered(server: Server, emails: map<string, Email>, more: map<string, Email>, c: Option<Link>)
    requires Covered(server, emails, c) && Successor(server(c)).Some?
    requires emails.Keys <= more.Keys && HasAll(more, server(c).messages)
    ensures Covered(server, more, Successor(server(c)).value)
  {
    CoveredGrows(server, emails, more, c);
    CoveredNext(server, more, c);
  }

  lemma StepSafe(server: Server, account: int, s: System, e: Event)
    requires Safe(server, s)
    ensures Safe(server, Step(server, account, s, e))
  {
    StartCovered(server, s.db.emails);
    if e.Advance? && e.run in s.live && s.live[e.run].local.fetches < s.live[e.run].maxPages {
      var l := s.live[e.run].local;
      TurnCovered(server, account, s.db, l, e.fault, e.now);
      var (db', turn) := PageTurn(account, s.db, l, e.fault, server(l.cursor), e.now);
      forall r | r in s.live ensures Covered(server, db'.emails, s.live[r].local.cursor) {
        CoveredGrows(server, s.db.emails, db'.emails, s.live[r].local.cursor);
      }
    }
  }

  /** The stored cursor never runs ahead of the data, whatever overlaps: no use is made of the lease. */
  lemma {:induction false} CursorNeverAhead(server: Server, account: int, s: System, events: seq<Event>)
    requires Safe(server, s)
    ensures Safe(server, Run(server, account, s, events))
    decreases |events|
  {
    if events != [] {
      StepSafe(server, account, s, events[0]);
      CursorNeverAhead(server, account, Step(server, account, s, events[0]), events[1..]);
    }
  }

  lemma EmptyCursorSafe(server: Server, db: Db)
    requires Cursor(db) == None
    ensures Safe(server, System(db, map[]))
  {
    StartCovered(server, db.emails);
  }

  // ---------- The store and the service ----------

  class MailSyncStore {
    const account: int
    var emails: map<string, Email>
    var state: Option<SyncState>

    constructor (account: int)
      ensures this.account == account && emails == map[] && state == None
    {
      this.account := account;
      emails, state := map[], None;
    }

    function Snapshot(): Db
      reads this
    {
      Db(emails, state)
    }

    method BeginSync(startedAt: int) returns (r: Result<Option<Link>>)
      modifies this
      ensures r.Ok? == Begin(old(Snapshot()), startedAt).Ok?
      ensures r.Err? <==> LeaseHeld(old(Snapshot()), startedAt)
      ensures r.Ok? ==> Snapshot() == Begin(old(Snapshot()), startedAt).value && r.value == Cursor(Snapshot())
      ensures r.Ok? ==> emails == old(emails) && r.value == Cursor(old(Snapshot())) && state.Some?
                        && state.value.startedAt == Some(startedAt) && state.value.status == Syncing && state.value.errorCode.None?
      ensures r.Err? ==> r.error == "SYNC_IN_PROGRESS" && Snapshot() == old(Snapshot())
    {
      var model := if state.Some? then state.value else SyncState(None, None, None, Idle, None);
      if model.status == Syncing && model.startedAt.Some? && startedAt - model.startedAt.value < SYNC_LEASE {
        return Err("SYNC_IN_PROGRESS");
      }
      model := model.(startedAt := Some(startedAt), status := Syncing, errorCode := None);
      state := Some(model);
      r := Ok(model.cursor);
    }

    method UpsertMessages(messages: seq<Candidate>) returns (r: Ingestion)
      modifies this`emails
      ensures emails == Upsert(account, old(emails), messages)
      ensures r == Counts(old(emails), messages)
    {
      var unique: map<string, Candidate> := map[];
      for k := 0 to |messages|
        invariant unique == Latest(messages[..k])
      {
        assert messages[..k + 1][..k] == messages[..k];
        unique := unique[messages[k].id := messages[k]];
      }
      assert messages[..|messages|] == messages;
      r := Ingestion(|unique.Keys - emails.Keys|, |unique.Keys * emails.Keys|);
      WriteRows(unique);
    }

    method WriteRows(unique: map<string, Candidate>)
      modifies this`emails
      ensures emails == WriteAll(account, old(emails), unique)
    {
      ghost var before := emails;
      var rest := unique.Keys;
      while rest != {}
        invariant rest <= unique.Keys
        invariant emails == WriteAll(account, before, Only(unique, unique.Keys - rest))
        decreases |rest|
      {
        var id :| id in rest;
        WriteOne(account, before, unique, unique.Keys - rest, id);
        assert unique.Keys - (rest - {id}) == (unique.Keys - rest) + {id};
        emails := emails[id := Write(account, Get(emails, id), Some(unique[id])).value];
        rest := rest - {id};
      }
      assert Only(unique, unique.Keys - rest) == unique;
    }

    /** `None` where the row has disappeared and the transaction rolls back. */
    method IngestPage(messages: seq<Candidate>, cursor: Link) returns (r: Option<Ingestion>)
      modifies this
      ensures r.Some? == old(state).Some?
      ensures r.Some? ==> r.value == Counts(old(emails), messages)
                          && Snapshot() == Db(Upsert(account, old(emails), messages), Some(old(state).value.(cursor := Some(cursor))))
      ensures r.None? ==> Snapshot() == old(Snapshot())
    {
      if state.None? { return None; }
      var counts := UpsertMessages(messages);
      state := Some(state.value.(cursor := Some(cursor)));
      r := Some(counts);
    }

    method CompleteSync(messages: seq<Candidate>, deltaLink: Link, finishedAt: int) returns (r: Option<Ingestion>)
      modifies this
      ensures r.Some? == old(state).Some?
      ensures r.Some? ==> r.value == Counts(old(emails), messages)
                          && emails == Upsert(account, old(emails), messages)
                          && state == Some(old(state).value.(cursor := Some(deltaLink), finishedAt := Some(finishedAt),
                                                             status := Succeeded, errorCode := None))
      ensures r.None? ==> Snapshot() == old(Snapshot())
    {
      if state.None? { return None; }
      var counts := UpsertMessages(messages);
      state := Some(SyncState(Some(deltaLink), state.value.startedAt, Some(finishedAt), Succeeded, None));
      r := Some(counts);
    }

    method FailSync(code: string, finishedAt: int)
      modifies this
      ensures Snapshot() == Fail(old(Snapshot()), code, finishedAt)
    {
      if state.Some? {
        state := Some(state.value.(status := Failed, finishedAt := Some(finishedAt), errorCode := Some(code)));
      }
    }

    method InvalidateCursor(code: string, finishedAt: int)
      modifies this
      ensures Snapshot() == Invalidate(old(Snapshot()), code, finishedAt)
    {
      if state.Some? {
        state := Some(SyncState(None, state.value.startedAt, Some(finishedAt), Failed, Some(code)));
      }
    }
  }

  class MailSyncService {
    const store: MailSyncStore
    const maxPages: nat

    constructor (store: MailSyncStore, maxPages: nat)
      requires maxPages >= 1
      ensures this.store == store && this.maxPages == maxPages
    {
      this.store := store;
      this.maxPages := maxPages;
    }

    /** One pass of the page loop: the fetched page or the fault, then one transaction. */
    method TakePage(l: Local, fault: Fault, page: Page, finishedAt: int) returns (turn: Turn)
      modifies store
      ensures (store.Snapshot(), turn) == PageTurn(store.account, old(store.Snapshot()), l, fault, page, finishedAt)
    {
      var now := l.(fetches := l.fetches + 1);
      match fault {
        case TokenRejected =>
          store.InvalidateCursor("DELTA_STATE_INVALID", finishedAt);
          turn := Ended(Aborted("DELTA_STATE_INVALID"), now);
        case FetchFailed(code) =>
          store.FailSync(code, finishedAt);
          turn := Ended(Aborted(code), now);
        case Killed =>
          turn := Ended(Died, now);
        case NoFault =>
          turn := StorePage(now, page, finishedAt);
      }
    }

    /** A page that another one follows. */
    method StoreNext(l: Local, page: Page, finishedAt: int) returns (turn: Turn)
      requires page.nextLink.Some? && page.nextLink.value !in l.visited
      modifies store
      ensures (store.Snapshot(), turn) == PageStored(old(store.Snapshot()), Upsert(store.account, old(store.emails), page.messages),
                                                     Counts(old(store.emails), page.messages), l, page, finishedAt)
    {
      var now := l.(observed := l.observed + |page.messages|);
      ghost var db, emails := store.Snapshot(), Upsert(store.account, store.emails, page.messages);
      NextStored(db, emails, Counts(store.emails, page.messages), l, page, finishedAt);
      var result := store.IngestPage(page.messages, page.nextLink.value);
      if result.None? {
        store.FailSync("SYNC_UNEXPECTED", finishedAt);
        return Ended(Aborted("SYNC_UNEXPECTED"), now);
      }
      now := now.(inserted := l.inserted + result.value.inserted, updated := l.updated + result.value.updated);
      turn := More(now.(cursor := page.nextLink, visited := l.visited + {page.nextLink.value}));
    }

    /** The last page. */
    method StoreLast(l: Local, page: Page, finishedAt: int) returns (turn: Turn)
      requires page.nextLink.None? && page.deltaLink.Some?
      modifies store
      ensures (store.Snapshot(), turn) == PageStored(old(store.Snapshot()), Upsert(store.account, old(store.emails), page.messages),
                                                     Counts(old(store.emails), page.messages), l, page, finishedAt)
    {
      var now := l.(observed := l.observed + |page.messages|);
      var result := store.CompleteSync(page.messages, page.deltaLink.value, finishedAt);
      if result.None? {
        store.FailSync("SYNC_UNEXPECTED", finishedAt);
        return Ended(Aborted("SYNC_UNEXPECTED"), now);
      }
      now := now.(inserted := l.inserted + result.value.inserted, updated := l.updated + result.value.updated);
      turn := Ended(Completed(page.deltaLink.value), now);
    }

    method StorePage(l: Local, page: Page, finishedAt: int) returns (turn: Turn)
      modifies store
      ensures (store.Snapshot(), turn) == PageStored(old(store.Snapshot()), Upsert(store.account, old(store.emails), page.messages),
                                                     Counts(old(store.emails), page.messages), l, page, finishedAt)
    {
      if (page.nextLink.Some? && page.nextLink.value in l.visited) || (page.nextLink.None? && page.deltaLink.None?) {
        store.InvalidateCursor("DELTA_STATE_INVALID", finishedAt);
        return Ended(Aborted("DELTA_STATE_INVALID"), l.(observed := l.observed + |page.messages|));
      }
      if page.nextLink.Some? { turn := StoreNext(l, page, finishedAt); } else { turn := StoreLast(l, page, finishedAt); }
    }

    method Synchronize(server: Server, fault: nat -> Fault, startedAt: int, finishedAt: int) returns (ending: Ending, l: Local)
      modifies store
      ensures (store.Snapshot(), ending, l)
              == RunOnce(server, store.account, old(store.Snapshot()), Invocation(startedAt, finishedAt, maxPages, fault))
    {
      l := Fresh(None);
      var state := store.BeginSync(startedAt);
      if state.Err? { return Aborted("SYNC_IN_PROGRESS"), l; }
      l := Fresh(state.value);
      ghost var goal := Pages(server, fault, maxPages, store.account, store.Snapshot(), l, finishedAt);
      for n := 0 to maxPages
        invariant l.fetches == n
        invariant goal == Pages(server, fault, maxPages, store.account, store.Snapshot(), l, finishedAt)
      {
        var turn := TakePage(l, fault(n), server(l.cursor), finishedAt);
        l := turn.local;
        if turn.Ended? { return turn.ending, l; }
      }
      store.FailSync("SYNC_PAGE_LIMIT", finishedAt);
      ending := Aborted("SYNC_PAGE_LIMIT");
    }
  }
}
