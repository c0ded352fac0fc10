# Durable protocols of the recruitment mail agent

A model, in Dafny, of the protocols by which the agent guards external effects and unbounded
histories, with proofs about all their runs.

- `BriefDispatch.dfy`: the audit row of a daily brief, the sender with its retry loop, and any number
  of workers that may stall or crash.
- `MailSync.dfy`: paginated delta synchronization of one folder; each page is stored together with its
  cursor.
- `ApplicationStatus.dfy`, `Domain.dfy`, `DomainCommits.dfy`, `DomainRuns.dfy`: the monotone status rule;
  evidence, resolution and plans; the transaction that revalidates and applies a plan; and runs of stale
  and racing commits.
- `Extraction.dfy`, `ReviewQuestions.dfy`, `ReviewWorkflow.dfy`: the validator, the questions asked of a
  human with what the answers do to the evidence, and the workflow graph as a state machine.
- `OperationLease.dfy`, `PendingDrain.dfy`: claims, retries and finality of one queued operation; the
  batched fan-out over waiting mail and its chain of continuations.
- `CalendarSync.dfy`: the stored fingerprint as a cache of provider content.
- `CleanText.dfy`: the line loop that cleans message bodies.
- `DomainLaws.dfy`, `ExtractionLaws.dfy`, `ReviewLaws.dfy`, `PendingDrainLaws.dfy`, `CleanTextLaws.dfy`: what
  the operations above do to emails, rows and answers, stated with literal statuses, numbers and rows and
  without the names of the operations' own parts.
- `Statuses.dfy`, `Wrappers.dfy`: shared status values, options and results.

Code that updates rows, lists or local variables is modelled as methods over fields and loops. Each
method is tied to a specification function of the old state, and the lemmas are about that function.
Interleavings are sequences of atomic steps, one database transaction or one external answer each.

Conventions. A hash or a uuid5 (section 5.5 of RFC 9562) is the tuple it is computed from. An exception
is a `Result` error. Aware datetimes are instants; before they are normalized, a datetime is a wall clock
with an optional zone. Clocks, provider answers, model output, human answers and the library functions
for zones, datetime parsing and text matching are parameters and may be anything. The fan-out lemmas hold
for any batch bound `most`; the constructor of the executor sets it to 50.

What is assumed of others is a named predicate. `BriefDispatch.Truthful`: the mail provider answers 202
exactly when it took a mail, among its answers below 500 (`UntruthfulDuplicates` shows that two deliveries
are possible otherwise). `OperationLease.Timely`: surviving workers end within their leases
(`StaleWorkerReopens` is a run without it). `PendingDrain.Tidy`: an orphan has one awaiting run and no live
operation (`UntidyStopsEarly` is a run without it). `MailSync.Chain`: the provider's pages are fixed and
finite, used for resumption only. `ReviewWorkflow.Honest`: an extraction comes with the validator's own
report.

Where the code does less than it seems to promise, the model follows the code, shows an input that fails
and states the exact condition:

- A review answer in the format the question shows (`YYYY-MM-DD HH:MM`) has no zone. When the email states
  its timezone, the workflow accepts that answer and then fails on it: `ReviewQuestions.ShownFormatRaises`,
  and as a whole run `ReviewWorkflow.ShownFormatRun`. Apart from an inconsistent role this is the only way
  the questionnaire fails to produce evidence (`ReviewQuestions.QuestionnaireComplete`).
- A calendar update whose answer is lost leaves the link row stale. If the domain then reverts, the next
  sync answers UNCHANGED over the wrong event (`CalendarSync.LostUpdateGoesUnnoticed`). UNCHANGED is right
  exactly when no applied update went unrecorded (`CalendarSync.SettledContent`), so in particular when no
  sync of the event has raised since it was last settled (`CalendarSync.UnchangedHolds`).
- A repeated calendar request calls the provider again exactly when it asks to replace a missing event
  (`CalendarSync.SettledRepeats`).
- Operation rows are finished and released without checking who holds them, so a worker stalled past its
  lease can reopen a completed operation (`OperationLease.StaleWorkerReopens`). A finished operation stays
  finished under all that can follow exactly when no other worker of it is still alive
  (`OperationLease.FinalExactly`).
- The orphan listing limits rows before it removes duplicates, so orphans with several awaiting runs can
  stop a drain early (`PendingDrain.UntidyStopsEarly`). A batch is shorter than the limit and the drainable
  mail allow exactly when the waiting mail and the orphans with no live operation among the first `limit`
  listed rows are too few (`PendingDrain.BatchExactly`).
- The `datetime_conflict` question is never asked: the validator reports a timezone conflict only as an
  error (`ReviewQuestions.ConflictNeverAsked`).
- A status history has at most seven rows for arbitrary plans and at most five for plans made from
  evidence (`DomainCommits.HistoryCounts`, `DomainRuns.PlannedHistoryShort`).

`dafny verify dfyconfig.toml` checks the whole project.

## Model

| member | source | states |
|---|---|---|
| BriefDispatch.TurnAgrees | src/recruitment_agent/microsoft/send_mail.py:42-112 | what one turn of the sender leads to (accepted, definitely unsent, uncertain, another turn) agrees with whether the provider took the mail, exactly when the answer was truthful; FAILED never hides a delivery then |
| BriefDispatch.StepSafe | src/recruitment_agent/application/daily_brief.py:183-244 | every step of any worker (claim, render, exchange with a truthful provider, report, crash) keeps: one live worker, deliveries at most one and in agreement with the row, grants equal to attempt_count and at most 3 |
| BriefDispatch.RunSafe | src/recruitment_agent/application/daily_brief.py:183-244 | the same over every interleaving |
| BriefDispatch.AtMostOnce | src/recruitment_agent/application/daily_brief.py:48-71 | from no row and with a truthful provider, over every interleaving of any workers that may stall past the lease or crash anywhere: at most one delivery per account and day, claims granted equal attempt_count and are at most 3, ACCEPTED means delivered once, FAILED means not delivered |
| BriefDispatch.UntruthfulDuplicates | src/recruitment_agent/microsoft/send_mail.py:77-112 | for every status below 500 other than 202: if a mail was taken although that was answered, a run with two deliveries exists |
| BriefDispatch.ClosedForever | src/recruitment_agent/application/daily_brief.py:48-71 | ACCEPTED and UNCERTAIN rows never change and grant no further claim |
| BriefDispatch.ClaimExactly | src/recruitment_agent/persistence/daily_brief.py:290-342 | a claim is granted exactly for a day without a row or after a failure below 3 attempts; a dispatch older than 600 seconds becomes UNCERTAIN, a younger one and a closed row stay |
| BriefDispatch.ReportExactly | src/recruitment_agent/persistence/daily_brief.py:344-390 | a report is taken exactly by a DISPATCHING row, which gets its status and error, and its time when accepted |
| BriefDispatch.TurnExactly | src/recruitment_agent/microsoft/send_mail.py:42-112 | a connection that failed, a 429 and a first 401 are tried again while attempts remain; otherwise SENT means 202 and UNSURE a lost answer or a status of 500 and more |
| BriefDispatch.ReportedExactly | src/recruitment_agent/application/daily_brief.py:216-244 | what each result of the sender is reported as |
| BriefDispatch.WorkerExactly | src/recruitment_agent/application/daily_brief.py:183-244 | a failed rendering is reported FAILED with its code, a rendered brief is sent, and a report reaches the row |
| BriefDispatch.DailyBriefStore.ClaimDispatch | src/recruitment_agent/persistence/daily_brief.py:290-342 | the transaction inserts, grants, refuses or abandons exactly as the claim decision says and leaves all other days alone |
| BriefDispatch.DailyBriefStore.SetStatus | src/recruitment_agent/persistence/daily_brief.py:344-390 | only a DISPATCHING row takes a report; anything else raises and changes nothing |
| BriefDispatch.GraphBriefMailClient.SendBrief | src/recruitment_agent/microsoft/send_mail.py:42-112 | the retry loop returns what its turns decide and takes the worker through the interleaved system exactly to the reported result, within max_attempts exchanges in order |
| BriefDispatch.DailyBriefService.SendToday | src/recruitment_agent/application/daily_brief.py:183-244 | without interference one call is one schedule of the interleaved system; delivered, not claimed and raised are told apart by the row it leaves |
| MailSync.UpsertAllNet | src/recruitment_agent/persistence/mail.py:125-174 | any sequence of page upserts acts on each row like one net message: newest fields, newest body hash that is present, processing_status kept |
| MailSync.Absorb | src/recruitment_agent/persistence/mail.py:125-174 | a page upserted before a pass that contains it leaves no trace |
| MailSync.UpsertGrows | src/recruitment_agent/persistence/mail.py:125-174 | an upsert adds exactly the page ids, keeps processing_status and account of existing rows, never loses a body hash, and starts new rows as pending |
| MailSync.CountsExact | src/recruitment_agent/persistence/mail.py:125-174 | inserted is the growth of the table; inserted plus updated is the number of distinct ids, at most the messages seen |
| MailSync.UpsertRow | src/recruitment_agent/persistence/mail.py:125-174 | a row takes the fields of the last message of its id, its hash if there is one, and keeps account and status, or starts pending under this account |
| MailSync.UpsertOthers | src/recruitment_agent/persistence/mail.py:125-174 | an id that is not on the page keeps its row, or stays absent |
| MailSync.BeginExactly | src/recruitment_agent/persistence/mail.py:37-71 | a start is refused exactly while the row is SYNCING with a start less than 600 seconds ago; otherwise it claims the row and goes on from the stored cursor |
| MailSync.FailureExactly | src/recruitment_agent/application/mail_sync.py:202-233 | which failures clear the cursor, which keep it, and with which code; a killed run leaves the row as it was |
| MailSync.ResetExactly | src/recruitment_agent/persistence/operations.py:489-503 | a manual reset clears cursor and error and keeps the emails; a run out of pages keeps its cursor |
| MailSync.RunBounded | src/recruitment_agent/application/mail_sync.py:160-233 | every run fetches at most max_pages pages; a completed run leaves SUCCEEDED with its delta link, a handled abort leaves FAILED with its code, never SYNCING; no email is lost |
| MailSync.CycleStops | src/recruitment_agent/application/mail_sync.py:172-183 | k fresh continuation links followed by a repeated one stop the run after exactly k+1 fetches with the cursor cleared |
| MailSync.CountersExact | src/recruitment_agent/application/mail_sync.py:156-201 | over a completed run: inserted equals the growth of the table, inserted plus updated the sum over pages of distinct ids, at most observed |
| MailSync.TurnResumes | src/recruitment_agent/application/mail_sync.py:163-199 | one page of a run over a fixed page chain moves the stored cursor and the data from position i to i+1, or ends at a position from which the pass can go on |
| MailSync.PagesResume | src/recruitment_agent/application/mail_sync.py:160-233 | a whole run from any position either finishes the enumeration or leaves the folder resumable |
| MailSync.PagesComplete | src/recruitment_agent/application/mail_sync.py:160-233 | without faults and within the page budget a run completes |
| MailSync.PagesAdvance | src/recruitment_agent/application/mail_sync.py:160-233 | without faults a run with a budget of k pages moves the stored cursor exactly k pages on |
| MailSync.CutShortUnfinished | src/recruitment_agent/application/mail_sync.py:160-233 | any number of runs cut short by refusal, error, crash, budget or invalidation leave the folder resumable |
| MailSync.ResumeRefinesOnePass | src/recruitment_agent/application/mail_sync.py:149-233 | runs cut short and then one completed run leave the same emails and cursor as a single uninterrupted run |
| MailSync.ResumeCompletes | src/recruitment_agent/application/mail_sync.py:149-233 | progress: after any runs cut short, crashes included, a run without faults and within its page budget that starts at least 600 seconds after the last claim completes, and leaves the emails and cursor of a single uninterrupted run |
| MailSync.BudgetsAddUp | src/recruitment_agent/application/mail_sync.py:149-233 | runs stopped by nothing but their page budgets add up: the stored cursor stands at the page that the sum of the budgets names |
| MailSync.TurnCovered | src/recruitment_agent/persistence/mail.py:73-122 | one transaction of any run keeps every message before the stored cursor and before the run's own cursor persisted |
| MailSync.StepSafe | src/recruitment_agent/persistence/mail.py:198-220 | the cursor invariant is kept by starts, pages, faults, invalidations and manual resets of overlapping runs |
| MailSync.CursorNeverAhead | src/recruitment_agent/application/mail_sync.py:163-195 | under any interleaving of overlapping runs, failures, invalidations and resets every message on every page before the stored cursor is persisted; the lease is not used |
| MailSync.EmptyCursorSafe | src/recruitment_agent/persistence/mail.py:37-71 | a folder without a cursor satisfies the cursor invariant whatever its emails |
| MailSync.MailSyncStore.BeginSync | src/recruitment_agent/persistence/mail.py:37-71 | refuses exactly while a SYNCING row is younger than 600 seconds; otherwise claims the row, keeps the emails and returns the stored cursor |
| MailSync.MailSyncStore.UpsertMessages | src/recruitment_agent/persistence/mail.py:125-174 | the deduplicating upsert loop, whatever order the rows are written in |
| MailSync.MailSyncStore.IngestPage | src/recruitment_agent/persistence/mail.py:73-94 | page and continuation cursor in one transaction, or nothing |
| MailSync.MailSyncStore.CompleteSync | src/recruitment_agent/persistence/mail.py:96-122 | last page, delta link and SUCCEEDED in one transaction, or nothing |
| MailSync.MailSyncStore.FailSync | src/recruitment_agent/persistence/mail.py:176-196 | records the failure and keeps the cursor |
| MailSync.MailSyncStore.InvalidateCursor | src/recruitment_agent/persistence/mail.py:198-220 | records the failure and clears the cursor |
| MailSync.MailSyncService.TakePage | src/recruitment_agent/application/mail_sync.py:163-199 | one pass of the page loop over the store |
| MailSync.MailSyncService.Synchronize | src/recruitment_agent/application/mail_sync.py:149-233 | the page loop computes the run that the lemmas above are about: same store, same ending, same counters |
| ApplicationStatus.NextRises | src/recruitment_agent/domain/processing.py:304-328 | a status only rises, and a second application of the same desired status changes nothing |
| ApplicationStatus.StaleTarget | src/recruitment_agent/domain/processing.py:304-328 | a target planned against an older status commits like the desired status itself |
| ApplicationStatus.FirstDecisionStands | src/recruitment_agent/domain/processing.py:304-328 | from UNKNOWN the fold of desired statuses is the first OFFER or REJECTED |
| ApplicationStatus.HighestRankStands | src/recruitment_agent/domain/processing.py:304-328 | without a decision the fold is the highest-ranked status seen |
| ApplicationStatus.OrderIrrelevant | src/recruitment_agent/domain/processing.py:304-328 | without a decision neither order nor repetition of the emails matters |
| Domain.RecruitmentDomainStore.ResolveApplicationForWrite | src/recruitment_agent/persistence/domain_processing.py:158-241 | links the email to its application, to the only open match, or to a new row; every refusal of the source |
| Domain.RecruitmentDomainStore.ApplyApplicationStatus | src/recruitment_agent/persistence/domain_processing.py:243-269 | moves the status by the monotone rule and appends exactly the history row of that move |
| Domain.RecruitmentDomainStore.CreatePlannedEvent | src/recruitment_agent/persistence/domain_processing.py:271-358 | inserts the event, or finds the semantic duplicate |
| Domain.RecruitmentDomainStore.ReschedulePlannedEvent | src/recruitment_agent/persistence/domain_processing.py:271-358 | rewrites an active interview and saves its old times once, or refuses |
| Domain.RecruitmentDomainStore.ApplyEventMutation | src/recruitment_agent/persistence/domain_processing.py:271-358 | the event part of a plan |
| Domain.RecruitmentDomainStore.ApplyActionItem | src/recruitment_agent/persistence/domain_processing.py:360-406 | inserts the action item, or finds the one with its idempotency key; an unknown link reference fails |
| Domain.RecruitmentDomainStore.ApplyTransition | src/recruitment_agent/persistence/domain_processing.py:104-156 | the whole transaction; any error leaves the database as it was |
| DomainCommits.ApplyCommits | src/recruitment_agent/persistence/domain_processing.py:104-156 | a successful commit touches one application, links the email to it, and records exactly the status change it makes |
| DomainCommits.EventTwice | src/recruitment_agent/persistence/domain_processing.py:271-358 | the event part applied again changes nothing and names the same event; the unique index is kept |
| DomainCommits.ActionTwice | src/recruitment_agent/persistence/domain_processing.py:360-406 | the action part applied again changes nothing and names the same action; the unique index is kept |
| DomainCommits.LinkTwice | src/recruitment_agent/persistence/domain_processing.py:158-241 | the linked email resolves to the same application, also when a create lost its race |
| DomainCommits.CommitTwice | src/recruitment_agent/persistence/domain_processing.py:104-406 | applying a plan twice equals applying it once: same store, same ids, changed=False, for every plan kind |
| DomainCommits.CommitKeepsOneOpen | src/recruitment_agent/persistence/domain_processing.py:158-241 | a commit without a reviewed create-new keeps at most one open application per known company and role |
| DomainCommits.CommitExtends | src/recruitment_agent/persistence/domain_processing.py:158-241 | a commit keeps every link, every identity and every closed application, and lets statuses only rise |
| DomainCommits.HistoryCounts | src/recruitment_agent/persistence/domain_processing.py:243-269 | version equals 1 plus the number of history rows, which is at most 7: no history id collides |
| DomainCommits.CommitKeepsHistory | src/recruitment_agent/persistence/domain_processing.py:243-269 | a commit keeps the history a gap-free, strictly rising chain from UNKNOWN to the current status |
| DomainLaws.WrittenExactly | src/recruitment_agent/domain/processing.py:351-365 | an email is written exactly when every time it speaks of is resolved and has its zone; a refused plan changes nothing |
| DomainLaws.LinkedEmail | src/recruitment_agent/application/domain_processing.py:74-142 | a linked email stays with its application and refuses another |
| DomainLaws.PickedApplication | src/recruitment_agent/application/domain_processing.py:74-142 | a picked application is taken exactly when it is open and of the email's company and role |
| DomainLaws.ForcedApplication | src/recruitment_agent/application/domain_processing.py:74-142 | a forced create opens a new application of the email's own |
| DomainLaws.UndirectedApplication | src/recruitment_agent/application/domain_processing.py:74-142 | no match opens a new application, one match of a known role is taken, and otherwise a human chooses among the matches |
| DomainLaws.CommittedApplication | src/recruitment_agent/persistence/domain_processing.py:158-241 | a commit links the email, a new row carries its company and role, and other applications stay |
| DomainLaws.EmailMovesStatus | src/recruitment_agent/domain/processing.py:288-328 | however old the plan: an open application becomes OFFER by an offer and REJECTED by a rejection, the other types lead forward to their own stage and never back, a decided one stays, and exactly that move is recorded |
| DomainLaws.RescheduleTarget | src/recruitment_agent/application/domain_processing.py:144-241 | a reschedule moves the picked interview, or the only active one of its round if there is such a round and of the application if not; else a new one, or a question about exactly these |
| DomainLaws.UntrackedEmail | src/recruitment_agent/domain/processing.py:343-348 | exactly general updates and unknown events are about no event |
| DomainLaws.OrdinaryEvent | src/recruitment_agent/application/domain_processing.py:144-275 | any other email repeats a dated row of its identity, or moves the only interview of its round to another time, or is a new event |
| DomainLaws.ResolvedIdentity | src/recruitment_agent/application/domain_processing.py:144-241 | every resolved event carries the identity of the email |
| DomainLaws.SameIdentityExactly | src/recruitment_agent/domain/processing.py:246-265 | two emails are about the same event exactly when company, role, kind, round and both times agree |
| DomainLaws.CommittedEventRow | src/recruitment_agent/persistence/domain_processing.py:271-358 | a committed event is active and has the times, zone, round and source text of the email, unless a row of its identity is there already |
| DomainLaws.RescheduledEventRow | src/recruitment_agent/persistence/domain_processing.py:271-358 | a rescheduled interview has the new times, keeps its kind, status and application, and the history remembers its old times |
| DomainLaws.EventsAlone | src/recruitment_agent/persistence/domain_processing.py:271-358 | repeated and untracked emails leave events and their history alone |
| DomainLaws.LinkWorksExactly | src/recruitment_agent/persistence/domain_processing.py:158-241 | when the link part of a commit works, and that a raced create joins the only open match |
| DomainLaws.EventWorksExactly | src/recruitment_agent/persistence/domain_processing.py:271-358 | when the event part of a commit works |
| DomainLaws.ActionWorksExactly | src/recruitment_agent/persistence/domain_processing.py:360-406 | when the action part of a commit works |
| DomainLaws.ChangedExactly | src/recruitment_agent/persistence/domain_processing.py:104-156 | the reported changed flag is true exactly when the database is not what it was |
| DomainLaws.CommittedAction | src/recruitment_agent/application/domain_processing.py:378-400 | an email that asks for action leaves one item with its kind, text, due date and link, new or found by its key |
| DomainLaws.NoAction | src/recruitment_agent/application/domain_processing.py:378-400 | other emails leave the action items alone |
| DomainRuns.CommitFolds | src/recruitment_agent/application/domain_processing.py:288-293 | however old the plan, its commit moves the status as its email asks; what an email asks is `DomainLaws.EmailMovesStatus` |
| DomainRuns.StepLinear | src/recruitment_agent/application/domain_processing.py:277-312 | planning or committing keeps every open plan in agreement with the database and every status equal to the fold of its log |
| DomainRuns.StalePlansLinearise | src/recruitment_agent/application/domain_processing.py:288-293 | for any interleaving of planning and committing over many emails every status is the fold over the emails in commit order |
| DomainRuns.StatusTellsEmails | src/recruitment_agent/domain/processing.py:288-328 | over any such interleaving: without a decision among its emails an application stands at the furthest stage any of them speaks of, and with decisions at the first one, OFFER for an offer and REJECTED for a rejection |
| DomainRuns.FurthestStageStands | src/recruitment_agent/domain/processing.py:288-328 | emails without a decision fold to the furthest of applied, assessment, interview pending and interview scheduled that one of them speaks of |
| DomainRuns.StepSafe | src/recruitment_agent/persistence/domain_processing.py:104-406 | one step keeps history, links and unique indexes, and never reaches a COMPLETED or WITHDRAWN status |
| DomainRuns.RunSafe | src/recruitment_agent/persistence/domain_processing.py:104-406 | the same over every run |
| DomainRuns.PlannedHistoryShort | src/recruitment_agent/domain/processing.py:288-301 | with plans made from evidence a history has at most five rows |
| DomainRuns.OneOpenForEver | src/recruitment_agent/persistence/domain_processing.py:158-241 | over any run without a reviewed create-new (forced, for a known company) each known company and role has at most one open application |
| DomainRuns.RunExtends | src/recruitment_agent/persistence/domain_processing.py:158-241 | over any run links never change and closed applications never reopen |
| DomainRuns.EmptySafe | src/recruitment_agent/persistence/domain_processing.py:158-241 | an empty database satisfies every run invariant |
| DomainRuns.UntouchedStands | src/recruitment_agent/persistence/domain_processing.py:271-358 | over any run in which no committed plan reschedules it, an event keeps its row |
| DomainRuns.SecondEmailDuplicates | src/recruitment_agent/application/domain_processing.py:144-241 | once a dated event is committed, and after any further run that does not reschedule it, later evidence with the same semantic identity resolves to exactly that event and plans no event write |
| Extraction.ExtractionValidator.ValidateEvidenceText | src/recruitment_agent/extraction/validator.py:61-84 | a finding for each blank text field, once, and no other |
| Extraction.ExtractionValidator.ValidateSourceGrounding | src/recruitment_agent/extraction/validator.py:127-150 | a finding for each quoted field that does not occur in the sanitized text, once, and no other |
| Extraction.ExtractionValidator.ValidateConfidenceRange | src/recruitment_agent/extraction/validator.py:86-103 | a finding for each confidence outside 0 to 1, once, and no other |
| Extraction.ExtractionValidator.ValidateConfidenceLevel | src/recruitment_agent/extraction/validator.py:105-125 | a finding for each confidence that matters and is below the threshold, once, and no other |
| Extraction.ExtractionValidator.ValidateRelevance | src/recruitment_agent/extraction/validator.py:152-190 | the relevance findings and no other |
| Extraction.ExtractionValidator.ValidateAction | src/recruitment_agent/extraction/validator.py:192-210 | the action findings and no other |
| Extraction.ExtractionValidator.ValidateLinkRef | src/recruitment_agent/extraction/validator.py:212-234 | the link-reference findings and no other |
| Extraction.ExtractionValidator.ValidateDatetimes | src/recruitment_agent/extraction/validator.py:236-258 | the missing-source and unresolved findings of both datetimes and no other |
| Extraction.ExtractionValidator.ValidateTimezone | src/recruitment_agent/extraction/validator.py:260-301 | the timezone and awareness findings and no other |
| Extraction.ExtractionValidator.ValidateEvent | src/recruitment_agent/extraction/validator.py:329-343 | the missing reschedule datetime and no other finding |
| Extraction.ExtractionValidator.Validate | src/recruitment_agent/extraction/validator.py:28-49 | the report holds every finding of every check exactly once, and the status follows from it |
| Extraction.RejectedExactly | src/recruitment_agent/extraction/validator.py:43-48 | INVALID exactly when some error condition holds, VALID exactly when no condition holds |
| Extraction.AcceptedTimesCoherent | src/recruitment_agent/extraction/validator.py:236-301 | an extraction that is not rejected has coherent time evidence |
| Extraction.GapsAreReported | src/recruitment_agent/extraction/validator.py:236-327 | the four time codes are reported exactly when the extraction leaves that time open |
| ExtractionLaws.OccursExactly | src/recruitment_agent/extraction/validator.py:127-150 | a text occurs in another exactly when it is a slice of it |
| ExtractionLaws.BlankExactly | src/recruitment_agent/extraction/validator.py:61-84 | a text is blank exactly when it holds no character but spaces |
| ExtractionLaws.LinkRefExactly | src/recruitment_agent/extraction/validator.py:212-234 | a link reference is `ACTION_LINK_` and two or more digits |
| ExtractionLaws.AcceptedExactly | src/recruitment_agent/extraction/validator.py:28-49 | an extraction is not INVALID exactly when every quoted field is a slice of the sanitized text with a visible character, confidences lie in 0 to 1, an irrelevant email says nothing, links are known and times are coherent |
| ExtractionLaws.ValidExactly | src/recruitment_agent/extraction/validator.py:28-49 | it is VALID exactly when it is moreover confident and leaves nothing open |
| ReviewQuestions.NextReviewSettles | src/recruitment_agent/graph/nodes.py:326-373 | the questionnaire ends exactly when nothing is pending, each answer settles exactly one question, and no reason is asked again |
| ReviewQuestions.AtMostFour | src/recruitment_agent/graph/nodes.py:326-373 | at most four validation questions for an extraction the validator does not reject |
| ReviewQuestions.ConflictNeverAsked | src/recruitment_agent/graph/nodes.py:331-334 | the datetime_conflict question is never asked about an extraction the validator does not reject |
| ReviewQuestions.AnswerMatches | src/recruitment_agent/graph/nodes.py:474-510 | a valid answer fills in exactly the evidence its question was about |
| ReviewQuestions.QuestionnaireCloses | src/recruitment_agent/graph/nodes.py:326-373 | after the last question every open time of the email, and no other, has a human answer |
| ReviewQuestions.QuestionnaireComplete | src/recruitment_agent/graph/nodes.py:553-599 | after the last question, evidence is rejected exactly for an inconsistent role or a zone-less clock typed under an explicit timezone, and a write is refused exactly for a reschedule with neither datetime nor source datetime text |
| ReviewQuestions.ShownFormatRaises | src/recruitment_agent/graph/nodes.py:227-243 | an accepted extraction that states its zone and leaves its datetime open is asked for the datetime first; a zone-less clock, the format shown, is a valid answer and is then rejected as evidence |
| ReviewWorkflow.AnswerReview | src/recruitment_agent/graph/nodes.py:461-550 | the update that the review node builds step by step is the transition the run lemmas are about |
| ReviewWorkflow.ReviewedOnce | src/recruitment_agent/application/domain_processing.py:74-142 | application resolution asks only when nothing was answered yet |
| ReviewWorkflow.EventAskedOnce | src/recruitment_agent/application/domain_processing.py:144-241 | event resolution asks only when nothing was answered yet |
| ReviewWorkflow.CalendarAdvances | src/recruitment_agent/graph/nodes.py:730-794 | whatever the calendar answers, a question is new and one of the two the calendar stage has left |
| ReviewWorkflow.AnswerSettles | src/recruitment_agent/graph/nodes.py:426-550 | a valid answer in any stage leaves one question fewer in that stage and fewer steps |
| ReviewWorkflow.StepAdvances | src/recruitment_agent/graph/builder.py:67-118 | every step of every node keeps the run invariant and leaves fewer steps |
| ReviewWorkflow.ObserveKeeps | src/recruitment_agent/graph/builder.py:67-118 | one step keeps: asked reasons distinct, stage budgets, one guarded write, an ignored run only ends |
| ReviewWorkflow.RunBounded | src/recruitment_agent/graph/nodes.py:426-550 | over every run no reason is asked twice, at most 8 reviews are answered (4 validation, 1 application, 1 event, 2 calendar), and at most 29 steps are taken |
| ReviewWorkflow.RunEnds | src/recruitment_agent/graph/builder.py:67-118 | a run whose questions get valid answers is over after 29 steps |
| ReviewWorkflow.WriteGuarded | src/recruitment_agent/graph/nodes.py:684-721 | the domain write is attempted at most once per run, only with a relevant extraction that is not rejected, no open question, a resolved application and event, and the allowed plan made of them |
| ReviewWorkflow.IgnoredWritesNothing | src/recruitment_agent/graph/nodes.py:486-487 | after an "ignore" answer nothing is written |
| ReviewWorkflow.EvidenceRefusals | src/recruitment_agent/graph/nodes.py:553-702 | at application resolution, event resolution and planning of every reachable run, evidence fails exactly for an inconsistent role or a zone-less clock typed under an explicit zone, and a write is refused exactly for a reschedule with neither datetime nor source datetime text |
| ReviewWorkflow.ShownFormatRun | src/recruitment_agent/graph/nodes.py:474-600 | for every email of that family with nothing else open, under every database, the run with that answer ends raised |
| ReviewLaws.FirstQuestion | src/recruitment_agent/graph/nodes.py:326-373 | for an extraction that is not rejected: which question comes first, with its reason and choices |
| ReviewLaws.PickableExactly | src/recruitment_agent/graph/nodes.py:268-323 | what each identity question lets a human pick |
| ReviewLaws.ValidExactly | src/recruitment_agent/graph/contracts.py:193-234 | which answers are valid |
| ReviewLaws.TimeAnswerRecorded | src/recruitment_agent/graph/nodes.py:474-513 | each time answer records the zone and the clock asked for and nothing else |
| ReviewLaws.PickRecorded | src/recruitment_agent/graph/nodes.py:486-550 | each identity or calendar answer records the pick or the wish and nothing else |
| ReviewLaws.EvidenceSays | src/recruitment_agent/graph/nodes.py:553-600 | the evidence has the human's clock, zone and company where given, else the email's, and the email's other facts |
| ReviewLaws.PickedCompany | src/recruitment_agent/graph/nodes.py:553-600 | a picked company is the company of the evidence |
| ReviewLaws.PickedApplicationTaken | src/recruitment_agent/graph/nodes.py:602-634 | over an unchanged database the picked application is the run's application |
| ReviewLaws.NewApplicationTaken | src/recruitment_agent/graph/nodes.py:602-634 | the wish for a new application makes one of the email's own |
| ReviewLaws.ForcedCreateTaken | src/recruitment_agent/graph/nodes.py:602-634 | so does that wish at the company question, over any database where the email is not linked |
| ReviewLaws.PickedEventTaken | src/recruitment_agent/graph/nodes.py:644-674 | the picked interview is the one rescheduled |
| ReviewLaws.NewEventTaken | src/recruitment_agent/graph/nodes.py:644-674 | the wish for a new event plans a new event |
| ReviewLaws.CalendarChoiceTaken | src/recruitment_agent/graph/nodes.py:730-794 | each calendar choice sets its own flag of the next request |
| ReviewLaws.EntryLeads | src/recruitment_agent/graph/nodes.py:76-206 | after six nodes an unlikely email is ignored without an extraction, and any other awaits validation with the model's answer |
| ReviewLaws.ValidationLeads | src/recruitment_agent/graph/nodes.py:376-423 | a rejected extraction fails, an irrelevant one is ignored, an open question is asked, and else resolution begins |
| ReviewLaws.PlanningLeads | src/recruitment_agent/graph/nodes.py:684-702 | planning raises exactly when some time is not resolved |
| ReviewLaws.CalendarLeads | src/recruitment_agent/graph/nodes.py:705-802 | after the write comes the calendar; its question is asked once and then counts as skipped |
| ReviewLaws.OutcomeTells | src/recruitment_agent/graph/builder.py:67-118 | over every run COMPLETED means written exactly once and synchronized, and FAILED means rejected by the validator |
| ReviewLaws.IgnoredTells | src/recruitment_agent/graph/builder.py:67-118 | over every run that has not raised: it is set aside exactly when the prefilter, an irrelevant extraction or a human said so, and it shows NEEDS_REVIEW exactly while a question is open |
| OperationLease.StepAccounted | src/recruitment_agent/persistence/operations.py:283-388 | every claim is live, released, finished or crashed; releases come from attempts below five |
| OperationLease.ReleasedAtMostFour | src/recruitment_agent/application/operations.py:577-587 | under any interleaving of stale workers and crashes an operation is released for retry at most 4 times |
| OperationLease.StepHeld | src/recruitment_agent/persistence/operations.py:283-317 | while workers keep their leases, only the last claimant is live and only under the RUNNING row; a final row stays |
| OperationLease.StepMailReady | src/recruitment_agent/persistence/operations.py:532-554 | while workers keep their leases, an operation waiting for its retry finds its email neither in work nor failed, whatever the handlers write |
| OperationLease.RunHeld | src/recruitment_agent/application/operations.py:545-603 | the same over every timely run: SUCCEEDED and FAILED are final |
| OperationLease.LeasesKept | src/recruitment_agent/application/operations.py:545-603 | in every timely run at most one worker is live, claims are at most 5 plus the crashes, and the mail is ready for every retry |
| OperationLease.StaleWorkerReopens | src/recruitment_agent/persistence/operations.py:349-388 | without that assumption a worker stalled past its lease puts a completed operation back into the queue |
| OperationLease.FinalExactly | src/recruitment_agent/persistence/operations.py:349-388 | a finished operation keeps its status under every sequence of later events exactly when no worker of it is still live |
| OperationLease.ExecutionIsTwoEvents | src/recruitment_agent/application/operations.py:545-603 | an undisturbed execution is a claim followed by the end of that worker, for the row and for the mail |
| OperationLease.ClaimExactly | src/recruitment_agent/persistence/operations.py:283-317 | a queued operation, or a running one whose lease of 25 minutes has ended, is claimed and counted |
| OperationLease.EndExactly | src/recruitment_agent/application/operations.py:561-603 | success ends SUCCEEDED, a refusal FAILED, an exception QUEUED up to the fourth attempt and FAILED from the fifth |
| OperationLease.MailExactly | src/recruitment_agent/application/operations.py:577-603 | an exception puts its email back to pending if it was in work or failed, and marks it failed from the fifth attempt |
| OperationLease.FifthExceptionFails | src/recruitment_agent/application/operations.py:545-603 | an operation whose attempts all raise is queued again four times and FAILED after the fifth, its email failed with it |
| OperationLease.OperationsStore.ClaimOperation | src/recruitment_agent/persistence/operations.py:283-317 | the conditional claim |
| OperationLease.OperationsStore.ResetSourceEmailPending | src/recruitment_agent/persistence/operations.py:540-554 | only an email in work or failed goes back to pending |
| OperationLease.OperationsStore.MarkSourceEmailFailed | src/recruitment_agent/persistence/operations.py:532-538 | an existing email becomes failed, whatever it was |
| OperationLease.OperationsStore.ReleaseOperationForRetry | src/recruitment_agent/persistence/operations.py:349-365 | requeues unconditionally |
| OperationLease.OperationsStore.FinishOperation | src/recruitment_agent/persistence/operations.py:367-388 | finishes unconditionally |
| OperationLease.OperationExecutor.Execute | src/recruitment_agent/application/operations.py:545-603 | claim, run, and complete, fail or release by the attempt count; an exception first puts the email back, or at last marks it failed |
| PendingDrain.LatestRun | src/recruitment_agent/persistence/operations.py:632-648 | finds, exactly when there is one, the orphaned run that started last |
| PendingDrain.ReclaimAllKeeps | src/recruitment_agent/persistence/operations.py:618-664 | for any mail, reclaiming turns exactly the listed orphans with no live operation into waiting mail |
| PendingDrain.BatchExactly | src/recruitment_agent/application/operations.py:680-694 | for any mail, a batch holds the waiting emails and the orphans with no live operation among the first limit joined rows, up to the limit; it is shorter than min(limit, D) exactly when these are fewer than that |
| PendingDrain.BatchFull | src/recruitment_agent/application/operations.py:680-694 | over tidy mail a batch is as long as the limit and the drainable mail allow |
| PendingDrain.EnqueueAllKeeps | src/recruitment_agent/application/operations.py:696-719 | each email of a batch gets one child and leaves the drainable mail, and no other does |
| PendingDrain.LoopRows | src/recruitment_agent/application/operations.py:661-668 | the children the loop creates are exactly those of the mail it took |
| PendingDrain.LoopCounts | src/recruitment_agent/application/operations.py:661-668 | the loop queues min(D, batches * limit) and stops early only when nothing is left |
| PendingDrain.FanOutExactly | src/recruitment_agent/application/operations.py:654-736 | a first execution over D drainable emails queues exactly min(D, most * limit) distinct children, one per email, each a queued row with its email and parent, and continues exactly when D > most * limit, by a queued row with the same batch limit |
| PendingDrain.ExecutionRan | src/recruitment_agent/application/operations.py:654-736 | an execution of the chain runs only from its own queued row and with the batch limit stored there, does to the mail and the rows exactly what a first execution does, and leaves the next one ready |
| PendingDrain.ChainDrains | src/recruitment_agent/application/operations.py:721-736 | from one queued submission over tidy mail, its executions, each with the limit it finds in its own row, have drained all D emails after the n-th exactly when D <= n * most * limit, and until then a further row is queued with that limit |
| PendingDrain.ChainCovers | src/recruitment_agent/application/operations.py:721-736 | after n such executions every email that left the drainable mail has a child from exactly one of them, and no other email has one |
| PendingDrain.UntidyStopsEarly | src/recruitment_agent/persistence/operations.py:585-616 | an orphan with as many awaiting runs as the limit makes the batch look short: the loop stops with mail left and no continuation |
| PendingDrainLaws.DrainableExactly | src/recruitment_agent/persistence/operations.py:556-616 | drainable is exactly the pending mail with no operation in work and the mail whose review was lost |
| PendingDrainLaws.OrphanExactly | src/recruitment_agent/persistence/operations.py:585-616 | an orphan is an email in review with a run that waits for a review that is not open |
| PendingDrainLaws.ReclaimExactly | src/recruitment_agent/persistence/operations.py:618-664 | reclaiming makes such an email pending and fails its lost run that started last; any other email is untouched |
| PendingDrainLaws.FanOutAdds | src/recruitment_agent/application/operations.py:654-736 | over any store an execution keeps every row and adds only queued children of its own and at most one continuation with its own limit |
| PendingDrainLaws.ExecutedOnce | src/recruitment_agent/application/operations.py:545-603 | only a queued row with a batch limit is executed, its row has succeeded then, and executing it again does nothing |
| PendingDrainLaws.OldestFirst | src/recruitment_agent/persistence/operations.py:556-576 | a batch takes the waiting mail in the order it was received |
| PendingDrainLaws.CutOffStartable | src/recruitment_agent/application/operations.py:654-678 | an execution cut off after any number of batches may start again |
| PendingDrainLaws.RedeliveryTakesRest | src/recruitment_agent/application/operations.py:654-736 | the redelivered execution queues exactly what was left, up to its own bound |
| PendingDrain.FanOutStore.ReclaimOrphaned | src/recruitment_agent/persistence/operations.py:618-664 | fails the latest orphaned run and makes its email pending, or does nothing |
| PendingDrain.FanOutStore.CreateChild | src/recruitment_agent/persistence/operations.py:187-238 | inserts a queued child unless its key is taken |
| PendingDrain.FanOutExecutor.NextPendingBatch | src/recruitment_agent/application/operations.py:680-694 | reclaims the listed orphans one by one, then lists the waiting mail |
| PendingDrain.FanOutExecutor.EnqueueChildren | src/recruitment_agent/application/operations.py:696-719 | the loop over a batch |
| PendingDrain.FanOutExecutor.DrainBatches | src/recruitment_agent/application/operations.py:659-668 | the loop over batches |
| PendingDrain.FanOutExecutor.FanOutPending | src/recruitment_agent/application/operations.py:654-678 | the method computes the fan-out the lemmas above are about, for any store |
| PendingDrain.FanOutExecutor.constructor | src/recruitment_agent/application/operations.py:51 | at most 50 batches |
| CalendarSync.StepCoherent | src/recruitment_agent/application/calendar_sync.py:258-349 | domain changes and syncs in any order keep: each link names its own provider event, whose content is the stored fingerprint exactly when the last applied PATCH was recorded |
| CalendarSync.RunCoherent | src/recruitment_agent/application/calendar_sync.py:258-349 | the same over every run |
| CalendarSync.EmptyCoherent | src/recruitment_agent/application/calendar_sync.py:258-349 | an empty calendar without links satisfies the invariant for any candidates |
| CalendarSync.SettledContent | src/recruitment_agent/application/calendar_sync.py:258-333 | CREATED and UPDATED leave the linked event equal to the draft of the current candidate; UNCHANGED does exactly when no applied PATCH went unrecorded |
| CalendarSync.UnrecordedRaised | src/recruitment_agent/application/calendar_sync.py:319-333 | an event whose applied PATCH went unrecorded has a sync that raised since it was last settled |
| CalendarSync.UnchangedHolds | src/recruitment_agent/application/calendar_sync.py:303-333 | over every run from an empty calendar: if no sync of the event has raised since one last ended CREATED or UPDATED, UNCHANGED means that the provider holds the wanted draft |
| CalendarSync.SettledRepeats | src/recruitment_agent/application/calendar_sync.py:294-317 | repeating a settled request without a domain change makes no gateway call, exactly when it does not ask to replace a missing event |
| CalendarSync.LostUpdateGoesUnnoticed | src/recruitment_agent/application/calendar_sync.py:313-329 | an applied update whose answer is lost, followed by a revert of the domain, ends UNCHANGED over the wrong event |
| CalendarSync.SyncAnswersPossible | src/recruitment_agent/application/calendar_sync.py:258-333 | a skipped update asks nothing, and a replacement never finds its event missing |
| CalendarSync.PlanExactly | src/recruitment_agent/application/calendar_sync.py:90-202 | a draft exists exactly for an active, resolved, dated interview or assessment, starts at its datetime and lasts its placeholder; a review is required exactly when something needed is missing or an inactive event is linked |
| CalendarSync.PlanIgnoresLink | src/recruitment_agent/application/calendar_sync.py:90-202 | a draft does not depend on whether a link exists |
| CalendarSync.UnplannedExactly | src/recruitment_agent/application/calendar_sync.py:90-202 | the reason for every candidate that gets no draft |
| CalendarSync.ShownText | src/recruitment_agent/application/calendar_sync.py:204-210 | a text is shown by its words, cut to the limit, and one with an URL or without words as "Recruitment" |
| CalendarSync.ShownOptional | src/recruitment_agent/application/calendar_sync.py:211-217 | an optional text is shown only if it has words and no URL |
| CalendarSync.DraftSays | src/recruitment_agent/application/calendar_sync.py:118-202 | company, role, stage and original time stand in the body, and the first three in the subject |
| CalendarSync.DraftsDiffer | src/recruitment_agent/application/calendar_sync.py:118-202 | equal drafts show the same company, role, stage, original time and start |
| CalendarSync.DecimalReads | src/recruitment_agent/application/calendar_sync.py:118-202 | the minutes in a draft read back as the number |
| CalendarSync.SyncExactly | src/recruitment_agent/application/calendar_sync.py:258-293 | a disabled, skipped or eventless sync calls nothing, and a missing candidate raises |
| CalendarSync.PlannedExactly | src/recruitment_agent/application/calendar_sync.py:281-350 | what a sync with a candidate does, case by case: to the provider, to the link and as its answer |
| CalendarSync.CalendarSyncStore.SaveLink | src/recruitment_agent/persistence/calendar.py:89-112 | one row per event, overwritten on conflict |
| CalendarSync.CalendarSyncService.Synchronize | src/recruitment_agent/application/calendar_sync.py:258-350 | the service computes the sync the lemmas above are about |
| CleanText.ChooseLines | src/recruitment_agent/email/html_normalizer.py:98-111 | the loop with its growing list, seen set, break and continue selects exactly the lines the specification keeps |
| CleanText.ChoicesExactly | src/recruitment_agent/email/html_normalizer.py:98-111 | the growing seen set decides exactly as the rule about earlier lines does, line by line |
| CleanText.CleanTextOf | src/recruitment_agent/email/html_normalizer.py:90-114 | the whole method |
| CleanText.KeptExactly | src/recruitment_agent/email/html_normalizer.py:98-111 | a line is kept exactly when it lies before the cut-off and is neither a doubled blank nor a repeated substantial line |
| CleanText.OutputTidy | src/recruitment_agent/email/html_normalizer.py:98-114 | no leading, trailing or doubled blank line and no repeated line of 24 or more characters in the output |
| CleanText.OutputFaithful | src/recruitment_agent/email/html_normalizer.py:98-114 | the output lines are input lines in input order |
| CleanText.CleanReadsBack | src/recruitment_agent/email/html_normalizer.py:90-114 | read back as text, the output has exactly the chosen lines |
| CleanText.CleanIdempotent | src/recruitment_agent/email/html_normalizer.py:90-114 | cleaning a cleaned text changes nothing, for every input |
| CleanTextLaws.InputKeepsInk | src/recruitment_agent/email/html_normalizer.py:90-99 | the lines chosen from hold every visible character of the body in order |
| CleanTextLaws.OutputKeepsInk | src/recruitment_agent/email/html_normalizer.py:112-114 | the text returned holds those of the chosen lines |
| CleanTextLaws.CollapseKeepsWords | src/recruitment_agent/email/html_normalizer.py:94-99 | collapsing blanks neither joins nor splits words |
| CleanTextLaws.BreaksNormalized | src/recruitment_agent/email/html_normalizer.py:90-97 | each kind of line break is one break, a no-break space a space, other text is kept |
| CleanTextLaws.KeptLiterally | src/recruitment_agent/email/html_normalizer.py:98-111 | before the cut-off a line with text is kept exactly when it does not start with `>` and its fingerprint of 24 or more characters is new |
| CleanTextLaws.BlankKept | src/recruitment_agent/email/html_normalizer.py:98-111 | a blank line is kept exactly when it is the first after a kept line with text |
| CleanTextLaws.KeptStays | src/recruitment_agent/email/html_normalizer.py:98-111 | later lines never change what was kept |
| CleanTextLaws.CleanLaws | src/recruitment_agent/email/html_normalizer.py:90-114 | of every cleaned text: no quoted line, no blank line first, last or doubled, no two lines with one fingerprint of 24 or more characters |

## Left out

- Message fetching, OAuth, token caches, queues, SQL text, encryption and graph checkpointing: only their
  outcomes (done, not done, unknown) appear.
- Crash and re-execution of a workflow from its checkpoint: a run that raises ends here; that a repeated
  domain write is harmless is `DomainCommits.CommitTwice`.
- The review store and the processing-run store: opening, resolving and finalizing are trusted steps.
- Prefilter, PII redaction, link extraction and HTML surgery: they rest on regular expressions and a
  parser; in the line loop the quote and footer patterns are arbitrary line predicates.
- Company and role resolution, runtime control, brief rendering, action-link decryption, metrics,
  dashboards, routes and settings: single lookups, conversions and filters without a history; what they
  answer enters the model as a parameter.
- Preparation of texts for plans: round and action texts arrive beside their normalized forms, so the cut
  of an action title to 255 characters is not modelled.
- Unique keys that fail during a commit: modelled as an error of the whole transaction, with no wait for
  the other writer.
- Email status updates by the handlers themselves: any write of a live worker (`OperationLease.Work`).
- Operation types other than the fan-out: their handlers are one of success, refusal or exception.
- Ties between emails received at the same instant: broken the same way by every query.
- Idempotency keys reused with other parameters: the keys of children and continuations determine their
  parameters, so that conflict cannot arise in the fan-out.
- Provider-side deduplication of calendar creates by transaction id, and edits of the calendar by others:
  each applied create is one more provider event.
- Floating-point confidences: real numbers; NaN does not occur.
- PendingDrain.FanOutExactly: requires tidy mail (each orphan has one awaiting run and no live operation), a
  first execution (no child and no continuation under its key yet) and no other worker; for mail that is
  not tidy see `BatchExactly` and `UntidyStopsEarly`.
- PendingDrain.ChainDrains: nothing else happens between the executions: no mail arrives, no child runs.
- OperationLease.LeasesKept: assumes that surviving workers end within their leases; without it,
  `StaleWorkerReopens` applies.
- MailSync.ResumeRefinesOnePass: requires a fixed and finite page chain that closes with a delta link; a
  mailbox that changes between runs is covered only by the cursor invariant.
