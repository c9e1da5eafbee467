# Verified model of the case delivery and lifecycle machinery

A Dafny 4.11 model of `app/cases/` and `app/case_cards.py`: how monitoring cases
live, how their notifications are queued, claimed, sent and committed by several
workers, and how handoffs are verified. `dafny verify dfyconfig.toml` checks it.

## How it is built

Each database transaction is one atomic step. Between steps any number of workers
interleave, act on rows they read long ago, crash, and lose claims to recovery.

- **Delivery protocol.** `Delivery` is the state machine: the database of `Outbox`
  and `Lifecycle`, one clock, and history (every version of every row, the tokens
  drawn, each worker's claim and send window, the deliveries committed per case).
  `Run` applies any sequence of events. A crash ends a worker's send and handler
  where they stand, and the worker takes no further step.
  `Fencing` holds the row invariants, `TokenRuns` the life of claim tokens,
  `Timing` what one clock buys, `CommitLog` the linear commit history, `Rate` the
  pace of notifications, `Recurrence` that none is lost, `Progress` that none is ever
  stuck. `Effects` tells what each write leaves behind, row by row, and `ReportKeys`
  which row answers which report.
- **Worker code.** `CaseStores`, `CaseServices`, `Scheduler`, `Runtimes`,
  `AttentionHandlers`, `ReportHandlers` and `OutboxProcessors` are the imperative
  code: classes whose fields are the stored rows, and methods with the loops,
  counters and compare-and-set calls of the source. `Deployments` joins the two. A
  call of a worker, handler or scheduler is an event of the protocol, and
  `Interfere` stands between its calls, reads included: its contract promises only
  what every run of other workers keeps (`ForeignRuns`), so the proofs hold under
  any interleaving. The guarded case writes of `CaseServices` are single events.
  Contracts name the states a call passed through, one for each read and each
  compare-and-set, and say what was stored there. The field `leads` links them: it is
  any relation that runs satisfy, as `keeps` is any property that events keep.
  `Protocols.Deploy` makes them "some run leads from one to the other" and
  reachability, which carries every run theorem over to the states the workers pass.
  What a handler does not decide (deadline, transport, failing release) is its `Fate`.
  `Turns` is the shape of a loop's promise: what each turn came to, and that it began
  after the turn before it.
- **Policy.** `Attention` is the reference policy, `Candidates` the SQL query with
  three-valued logic over the LEFT JOIN, `Paging` the cursor walk.
- **Handoffs.** `Lhp`, `Ledger`, `HandoffRuns`, `VerifierRuns`, `StaleChecks`, with
  the store and the verifier loop in `LedgerStores` and `Verifier`. Checkers hold
  any version of an objective ever stored and write it back whole.
- **Acknowledgements.** `Lifecycle` per observation, `AckRuns` over protocol runs.
- **Others.** `Investigation` (claims), `CaseCards` (the card register),
  `Correlation` (meta-cases), `ReportEmbed` (the embed budget).

Instants are integers in microseconds. Tokens are unique numbers, 0 being the empty
token. Digests are injective, so a signature stands for the tuple it hashes.

## Where the code does less than its comments say

- Reopening a suppressed report (`app/cases/service.py:265` and `:280`) compares no
  claim token. `StaleReopenTakesBack` is a run in which a report that was sent goes
  back to pending. `ReportReopenTakesBackIff` says when: exactly when another worker
  sent the row since it was read, and nothing wrote it after that. Attention rows do
  not suffer from it.
- A verification result is written back whole, without a version test
  (`app/cases/postgres.py:1258-1299`). `StaleCheckVerifies` is a run in which a handoff
  that needs two passes in a row is verified after pass, fail, pass. `RunTallyIff`
  says when pass counts can be trusted: exactly when every write started from the
  stored count. The same write restores the definition that was read, although the row
  was redefined since: in `StaleOwnerVerifies` a failed check takes an objective out
  of its handoff, which is then verified, and in `StaleNeedVerifies` one pass is enough
  for an objective that needs two. `RunAgreesIff` says when rows can be trusted:
  exactly when every write started from a version of the last definition. With both
  conditions verification is sound (`VerifiedOnlyIfProven`); `VerifiedAfterPasses` is
  what holds regardless.
- A card edit that went through but whose record was lost makes the message differ
  from the record, and a later delivery of the recorded payload is then skipped
  (`TornEditHidesDelivery`). `FaithfulIff` says exactly which runs end with the
  message showing the recorded payload.
- A comment in `app/cases/attention.py` says that a clean observation may lower the
  case severity. `_record_clean` does not touch it; the model follows the code.
- Expiring a suppression looks at the snooze only when there is no suppression
  (`app/cases/service.py:452`), so a snooze that outlasts it ends with it.
  `ExpiryLiftsIff` says that this is exactly when a running hold is lost. `suppress`
  writes both deadlines alike, so only a row written elsewhere loses one.
- An objective whose required status is not `pass` can never be satisfied
  (`UnusualRequirementBlocks`), although the data model allows it.

## Model

| member | source | states |
|---|---|---|
| Attention.RequestKeyInjective | app/cases/attention.py:88-92 | The idempotency key of a request determines its case, generation, phase, severity, sequence and kind, for any case id, even one containing colons |
| Attention.KeyExample | app/cases/attention.py:91 | One idempotency key written out |
| Attention.ReminderSpan | app/cases/attention.py:71-81 | The reminder interval is at least six hours and at least the configured interval |
| Attention.NothingDueWhileQuiet | app/cases/attention.py:56-61 | Nothing is due in closed, expired, linked or recovered_pending, nor for a covered case or one under a future deadline |
| Attention.RecoveryDueIff | app/cases/attention.py:62-68 | A resolved case that is free is owed a recovery, at the severity of the last notification, exactly when a positive clean observation resolved it and that notification was firing; otherwise nothing |
| Attention.AlarmDueIff | app/cases/attention.py:69-92 | In each of the other eleven statuses a free case that nobody acknowledged is owed exactly: new without a delivery, recurrence after a recovery, escalation on a higher severity, recurrence in another generation, and a reminder when high and the last delivery is six hours and the configured time old |
| Candidates.QueryAgreesWithPolicy | app/cases/postgres.py:426-464 | With NULLs and the LEFT JOIN, the WHERE clause, with its own list of statuses, is true of a row exactly when it is an atomic alertmanager or icinga2 case past the cursor for which the policy returns a request |
| Candidates.SelectCandidates | app/cases/postgres.py:426-464 | Filtering by the clause, ordering and limiting gives a page of exactly the cases the policy owes a request |
| Candidates.FiringAgrees | app/cases/postgres.py:449-460 | For a case that is not resolved the firing branch of the query agrees with the reference policy, NULL by NULL |
| Candidates.RowRoundTrip | app/cases/postgres.py:426-464 | Writing a case as a row and loading it keeps all that the policy reads |
| Paging.SelectPage | app/cases/postgres.py:414-424 | The page is ascending, within the limit, past the cursor, and skips no candidate before its end |
| Ids.BeforeAt | app/cases/postgres.py:414-424 | Ids are ordered by the first character in which they differ, and come after their own beginnings |
| Paging.SweepVisitsOnce | app/cases/attention_scheduler.py:41-51 | Between two wraps of the cursor every case that was a candidate throughout is visited exactly once, in id order, whatever else appears or vanishes |
| Paging.WrapComes | app/cases/runtime.py:54-63 | Over a fixed candidate set no walk is longer than floor(n / limit) + 1 ticks, and one of that length has wrapped |
| Paging.SweepLength | app/cases/attention_scheduler.py:41-51 | Over a fixed candidate set a completed walk takes exactly floor(n / limit) + 1 ticks |
| Paging.VisitsAscend | app/cases/attention_scheduler.py:41-51 | Within one walk ids are visited strictly upwards and never past the stored cursor |
| Lifecycle.GenerationMonotone | app/cases/service.py:1069-1103 | No case write lowers a report generation or removes a case |
| Lifecycle.AckStandsIffUnbreached | app/cases/service.py:1069-1103 | After any sequence of observations a case is still acknowledged if and only if none of them exceeded the acknowledged severity or fired on a resolved or recovering case, and then nothing about the acknowledgement changed |
| Lifecycle.FirstBreachClears | app/cases/service.py:1084-1090 | The first breach clears both acknowledgement fields and raises the generation by exactly one |
| Lifecycle.MissingScopeAdopted | app/cases/service.py:1072-1081 | An acknowledgement without a scope is given one at the severity known before the observation |
| Lifecycle.AckCoversItsSeverity | app/cases/service.py:392-412 | An acknowledgement covers the severity of the case at that moment |
| Lifecycle.OpeningIsRecorded | app/cases/service.py:1005-1027 | A new case is stored once, investigating, in generation zero and free |
| Lifecycle.FiringIsRecorded | app/cases/service.py:1084-1101 | A firing observation writes signal, severity and an empty reason, revives a resolved or recovering case into investigating with the next generation and no acknowledgement, and leaves every other field and case alone |
| Lifecycle.CleanIsRecorded | app/cases/service.py:1125-1138 | A clean or resolved observation of a source neither degraded nor failed resolves its case for that reason; any other observation that is not firing leaves the table as it was |
| Lifecycle.AckIsRecorded | app/cases/service.py:391-400 | An acknowledgement writes operator and instant, and a scope at the present severity, and nothing else |
| Lifecycle.SuppressionHolds | app/cases/service.py:424-435 | Suppressing for a positive time holds an uncovered case for exactly that long, and for any other time not at all |
| Lifecycle.ExpiryKeepsHold | app/cases/service.py:449-462 | Expiring does nothing before the deadline, clears both deadlines after it, and never starts a hold; where both deadlines agree it changes no hold |
| Lifecycle.ExpiryLiftsIff | app/cases/service.py:452-457 | Expiry ends a hold that is still running exactly when a snooze outlasts a suppression that has run out |
| Lifecycle.ReminderDueIff | app/cases/service.py:201-225 | A legacy reminder is due exactly for a high, unacknowledged, free case in a status that is not over, unchanged since its report, six hours and the configured time after it, and not under attention |
| Lifecycle.ProjectionCountsFromLater | app/cases/service.py:189-199 | A reminder of a monitored case waits for outstanding attention and counts from the later of report and attention delivery; other cases are seen as they are |
| Lifecycle.ReportIsRecorded | app/cases/service.py:284-294 | A report stamps its case with instant and state, and nothing else |
| Lifecycle.OthersAreRecorded | app/cases/correlation.py:142-259 | Correlation, status and issue writes change the fields they name |
| AckRuns.AckStandsIffUnbroken | app/cases/service.py:1069-1103 | Through any run of the delivery protocol without another acknowledgement of the case, it is acknowledged at the end if and only if no observation exceeded the coverage it had at the start or fired on it while resolved or recovering, and then nothing about the acknowledgement changed |
| AckRuns.FirstBreakRaisesGeneration | app/cases/service.py:1084-1090 | The first such observation clears the acknowledgement and leaves the generation exactly one above what it was when acknowledged |
| CaseServices.CaseService.CoveredSeverity | app/cases/service.py:1071-1081 | Reads the acknowledgement's coverage, recording a scope when there is none |
| CaseServices.CaseService.FiredFields | app/cases/service.py:1084-1101 | The field writes of a firing observation amount to the specified new case |
| CaseServices.CaseService.UpdateUnhealthy | app/cases/service.py:1068-1123 | A firing observation of a known case: new row and scope, nothing else; unknown cases are reported and change nothing |
| CaseServices.CaseService.RecordClean | app/cases/service.py:1125-1157 | Only a positive clean observation resolves the case; CleanIsRecorded says what it stores |
| CaseServices.CaseService.Observe | app/cases/service.py:125-164 | Observations of a known case dispatch by status; an unknown status changes nothing |
| CaseServices.CaseService.Ack | app/cases/service.py:391-412 | Both acknowledgement fields and the scope are written for one instant |
| CaseServices.CaseService.Suppress | app/cases/service.py:414-447 | A positive time to live sets both deadlines, any other clears them |
| CaseServices.CaseService.ExpireSuppression | app/cases/service.py:449-472 | Deadlines are cleared only once passed |
| CaseServices.CaseService.RecordReported | app/cases/service.py:284-304 | The report stamp and signature are stored on the case |
| CaseServices.CaseService.LegacyReminderProjection | app/cases/service.py:189-199 | Nothing while an attention intent was outstanding; otherwise the case with the later of its report and its attention delivery, read after other workers had their turn |
| CaseServices.CaseService.RequestReport | app/cases/service.py:227-282 | The row of the request's key as it is found; or, if it was suppressed and is eligible again, reopened over whatever has succeeded there by then; or, if nothing has, the row there at the end. It fails exactly when the key is new and the id taken |
| CaseServices.ReopenedReportIff | app/cases/service.py:253-273 | A report row may go out again exactly when it succeeded suppressed as a reminder that is due again, or withheld by a verbosity that now lets it through |
| ReportKeys.ReportKeyInjective | app/cases/service.py:236-243 | The key of a report determines its case, the digest of its state and the anchor of a reminder, for any case id; a reminder and a first report never share one |
| ReportKeys.RequestIsNamed | app/cases/service.py:236-252 | A request is filed under the key of its case and state, and as a reminder of the last report exactly when that was of this very state |
| ReportKeys.ReportRowIsItsOwn | app/cases/service.py:227-282 | In every reachable state the row that answers a report request is for its case, its state and its anchor: a due reminder is never answered by the first report or by the reminder of another report |
| CaseStores.CaseStore.RecordAcknowledgementScope | app/cases/postgres.py:230-236 | The scope of a case is replaced, and answers for its own acknowledgement time |
| CaseStores.CaseStore.AcknowledgementScope | app/cases/postgres.py:238-243 | A scope answers only for the acknowledgement time it was recorded for |
| CaseStores.CaseStore.EnqueueOutbox | app/cases/postgres.py:698-728 | The first intent of a key wins and is returned; the key index stays exact; only a new key under a taken id fails |
| CaseStores.CaseStore.UpdateOutboxIfStatus | app/cases/postgres.py:857-891 | The row is replaced exactly when it exists with the expected status and, if one is given, the expected token |
| CaseStores.CaseStore.ListOutbox | app/cases/postgres.py:927-935 | Exactly the rows in a status, once each, oldest first |
| CaseStores.CaseStore.GetAttention | app/cases/postgres.py:763-766 | The recorded delivery of a case, if any |
| CaseStores.CaseStore.HasPendingAttention | app/cases/postgres.py:768-774 | True exactly when some pending, failed or claimed report intent of the case carries a request |
| CaseStores.CaseStore.ClaimAttention | app/cases/postgres.py:776-802 | A lease is granted exactly when the case exists, the row is claimed under the caller's token, the sequence is the expected one and no live lease is held; malformed calls are rejected |
| CaseStores.CaseStore.ReleaseAttention | app/cases/postgres.py:804-806 | Only the owner's lease is dropped |
| CaseStores.CaseStore.CompleteAttention | app/cases/postgres.py:808-855 | Report fields, delivery, row and lease change together, exactly when row, sequence and unexpired lease all still match |
| CaseStores.CaseStore.ListAttentionCandidates | app/cases/postgres.py:426-464 | The query over the stored rows gives a page of exactly the monitored cases that are owed a request |
| CaseStores.CaseStore.ListReminderCandidates | app/cases/postgres.py:414-424 | A page of exactly the high-severity cases that were reported before |
| CaseStores.RemindersAreListed | app/cases/postgres.py:414-424 | The reminder query leaves out no case a reminder may be due for |
| Scheduler.Queue | app/cases/attention_scheduler.py:17-38 | Unless another worker wrote the row between the read and the compare-and-set, row and database are those of one atomic queueing at the instant of the compare-and-set; otherwise the row is the one there at the end. It fails exactly when the key is new and the id taken |
| Scheduler.Reopen | app/cases/attention_scheduler.py:27-37 | The compare-and-set reopens the row exactly when it is still the one that was read; when it is refused the row there by then is returned |
| Scheduler.FiledAs | app/cases/attention_scheduler.py:17-20 | A request is filed as a pending report intent that carries it, unclaimed and due at once |
| Scheduler.QueuedRowIs | app/cases/attention_scheduler.py:17-38 | The row of a request: new under a new key; pending again, as if nothing was suppressed, when what suppressed it no longer holds; otherwise as it is |
| Scheduler.EnqueueAttention | app/cases/attention_scheduler.py:9-38 | With other workers between the read and each write, nothing is queued exactly for an unmonitored case or one whose verdict on the delivery stored at the read is no request; otherwise that request is queued, or the id was taken |
| Scheduler.QueueIsProtocol | app/cases/attention_scheduler.py:17-38 | An atomic queueing is at most one step of the delivery protocol |
| Scheduler.DueIsQueued | app/cases/attention_scheduler.py:17-38 | A request whose turn has not passed ends in a row that carries it and was never sent: live, or withheld by a verbosity that still applies |
| Runtimes.EnqueueAttentionBatch | app/cases/attention_scheduler.py:41-51 | One page of due cases, each in its turn, in order, with other workers in between; every turn ends as its verdict on the delivery stored at its own read demands; the cursor is the last id of a full page and empty otherwise |
| Runtimes.Runtime.RemindOne | app/cases/runtime.py:58-62 | With other workers between its reads and the request, a reminder is requested exactly when the case, seen with what was outstanding at one read and delivered at the next, is due one |
| Runtimes.Runtime.EnqueueDueCaseReminders | app/cases/runtime.py:40-64 | Each pass takes the page past the cursor of the scheduler in force, gives every case on it its turn in order, counts what was queued, and advances that walk only; a pass that raises advances none; with neither scheduler on nothing happens |
| Runtimes.CountsQueued | app/cases/runtime.py:57-64 | The count of a page is the number of cases something was queued for |
| Effects.EnqueuedIff | app/cases/postgres.py:698-728 | A new intent is stored exactly when its key and its id are new |
| Effects.ClaimTakesIff | app/cases/outbox.py:69-80 | A claim is taken exactly when the row still has the status and token it was read with; it holds the row for ten minutes, counts an attempt, keeps what the intent says, and no other claim of the row succeeds |
| Effects.RecoveryIff | app/cases/outbox.py:140-151 | A report claim is taken back exactly from its expiry on, or ten minutes after the intent's creation if it has none, and its row is then pending and due at once |
| Effects.OutcomeIsStored | app/cases/outbox.py:89-124 | The worker that holds a row fails it, due again exactly from the retry time, or completes it with its outcome; a worker whose row was taken changes nothing |
| Effects.ReopeningIsStored | app/cases/attention_scheduler.py:27-37 | A reopened attention row is pending, due at once and reads as if nothing was suppressed |
| Effects.AbandonIff | app/cases/service.py:728-741 | An engineering intent of a cancelled handoff is abandoned unless it succeeded or was abandoned already |
| Effects.LeaseIff | app/cases/postgres.py:776-802 | A lease is granted exactly to the holder of the row, on a known case at the expected turn with no other lease running, and keeps others out for exactly two minutes |
| Effects.ReleaseIff | app/cases/postgres.py:804-806 | A worker gives back its own lease and no other |
| Effects.CommitIff | app/cases/postgres.py:808-855 | A commit is stored exactly while lease, claim and turn still stand; it records what the worker checked as the next delivery, completes the row, drops the lease and stamps a reported case |
| Effects.CommitTouchesOne | app/cases/postgres.py:808-855 | A commit touches no other case, delivery, lease, row or key |
| Effects.TimePassesIff | app/cases/outbox.py:84-88 | Time passes as long as no running report handler comes to more than 180 s and no running send to more than 60 s |
| Effects.OutstandingIff | app/cases/postgres.py:768-774 | Attention is outstanding for a case exactly while a report intent with a request for it has neither succeeded nor been abandoned |
| Fencing.RowsStep | app/cases/outbox.py:61-156 | Every event keeps the row invariants: versions of an intent agree on its identity, a claimed row is the only version with its token, a claim succeeds in one way |
| Fencing.WrittenAdmissible | app/cases/postgres.py:857-891 | Every row an event stores keeps its intent's identity, takes only a fresh token into progress, and succeeds only out of its own claim |
| Fencing.IndexedStep | app/cases/postgres.py:698-728 | The key index names exactly one row per key in every state |
| TokenRuns.TokenLife | app/cases/outbox.py:69-80 | Over any interleaving of workers, crashes, recovery, reopening and abandonment a claim token enters in_progress at most once and leaves at most once, and a row holds it exactly in between |
| TokenRuns.FencedForever | app/cases/outbox.py:89-127 | A worker that lost its claim never changes anything again, whatever happens in between |
| TokenRuns.ReleasedForever | app/cases/outbox.py:137-151 | A claim that does not hold its row never holds it again, in any continuation |
| TokenRuns.DeliveredRowFinal | app/cases/attention_scheduler.py:27-38 | A row committed as delivered never leaves succeeded, nor changes at all |
| TokenRuns.FencingFromTheStart | app/cases/outbox.py:61-156 | The three together for every run from an empty store and every continuation of it |
| TokenRuns.ReopenTouchesOnlySuppressed | app/cases/attention_scheduler.py:21-37 | An attention row is reopened only while it is the row that was read, suppressed and undelivered |
| TokenRuns.ReportReopenTakesBackIff | app/cases/service.py:253-281 | A report read as suppressed and reopened after any run takes back a sent notification exactly when another worker sent the row in between and nothing wrote it after that |
| TokenRuns.OnlyReportReopenTakesBack | app/cases/service.py:265-280 | No other event takes a sent row back, and that one only from a snapshot with another token |
| TokenRuns.StaleReopenTakesBack | app/cases/service.py:265-280 | A concrete run in which a stale reopening takes a sent report back to pending |
| Timing.NoOverlap | app/cases/outbox.py:73-86 | In every reachable state running report handlers have distinct intents and running sends have distinct cases |
| Timing.OneHandlerPerIntent | app/cases/outbox.py:84-86 | With one clock, a 180 s handler deadline and a 600 s claim, two live report handlers are never for one intent |
| Timing.LiveRowUntouched | app/cases/outbox.py:137-156 | No event, expiry recovery included, writes the row of a live report handler |
| Timing.OneSendPerCase | app/cases/attention_handler.py:41-62 | Two 60 s send windows under 120 s leases never overlap for one case |
| CommitLog.SequenceCountsCommits | app/cases/postgres.py:808-855 | The stored sequence of a case is the number of deliveries committed for it over any run |
| CommitLog.CommitIsAtomic | app/cases/postgres.py:808-855 | A commit appends exactly one delivery, for its own case, takes its own row from in_progress to succeeded in the same step, and drops the lease |
| CommitLog.OneCommitPerSequence | app/cases/postgres.py:816-828 | Of two leases for one case with the same expected sequence at most one ever commits |
| CommitLog.RequestCommittedOnce | app/cases/attention_handler.py:35-74 | Over any run no attention request is committed twice |
| Rate.AdjacentDeliveries | app/cases/attention.py:71-81 | Whichever path sent them, adjacent firing deliveries of one generation without a severity rise are at least max(21600, reminder) seconds apart; generations never go back; a recovery follows a firing delivery at its severity |
| Rate.DeliveriesArePaced | app/cases/handlers.py:227-257 | In any stretch of one generation without a recovery severity never falls, at most three deliveries are escalations, and n deliveries take at least n - 4 reminder intervals |
| Rate.OwedMayFollow | app/cases/attention.py:51-87 | A request that is owed may follow the last delivery without breaking pace, severity order or phase order |
| Rate.ReminderMayFollow | app/cases/service.py:189-225 | A legacy reminder that is due keeps pace with attention deliveries too |
| Rate.EpisodeBound | app/cases/attention.py:71-81 | The bound for one episode, by induction over its deliveries |
| Recurrence.SilenceMeansDelivered | app/cases/attention.py:51-87 | An unacknowledged, unheld alarm for which nothing is due has a firing delivery of its own generation, at its severity or above, on record |
| Recurrence.DeliveredNotAhead | app/cases/attention.py:71-81 | A stored delivery generation never exceeds the case's report generation |
| Recurrence.BreachIsDue | app/cases/service.py:1084-1090 | A firing observation that revives a case or exceeds its acknowledgement makes a firing request of the raised generation due at once, unless the case is retired or held |
| Recurrence.RevivedIsDue | app/cases/service.py:1084-1101 | A firing observation of a free resolved or recovering case, or one beyond its acknowledgement in any status but closed, expired and linked, makes a firing request of the next generation due at once |
| Recurrence.CleanIsDue | app/cases/service.py:1135-1138 | A clean or resolved observation of a healthy source makes the recovery of a free case due at once, at the severity of the firing delivery it closes |
| Recurrence.OwedUntilSettled | app/cases/attention.py:51-87 | An unannounced generation stays due through any run until a delivery of it commits, the case is acknowledged, or it stops alarming; holds only delay it |
| Recurrence.NoLostRecurrence | app/cases/service.py:1068-1106 | At any time after a breach an alarming, unheld case is either due or was announced in its current generation since the breach |
| Recurrence.TurnNeverBlocked | app/cases/attention_scheduler.py:17-38 | While the turn of a request has not passed, its key never belongs to a row that was delivered, and the row that has it carries that request |
| Recurrence.DueNeverBlocked | app/cases/attention_scheduler.py:17-38 | A due request's key never belongs to a row that was already delivered |
| Progress.NeverStuck | app/cases/outbox.py:1-6 | From every reachable state in which a request is owed to a monitored case, whatever crashed, lapsed or was suppressed, some run delivers that very request: one more delivery with its own fields, its row completed as delivered |
| Progress.OneIsEnough | app/cases/attention_handler.py:35-74 | Once nobody is at work and claim and lease have lapsed, one worker delivers the request |
| Deployments.ForeignRuns | app/cases/outbox.py:61-135 | Every run of the other workers, of any length, is covered by what a worker relies on between its steps |
| Protocols.ReachableInvariants | app/cases/outbox.py:1-6 | Every reachable state meets the timing, pacing, delivery and index invariants together |
| Protocols.Deploy | app/cases/outbox.py:45-49 | Workers started on an empty store keep it a reachable state of the protocol, so every run theorem holds of it |
| Protocols.DeployedInvariants | app/cases/outbox.py:45-49 | The store that a deployment's workers leave behind meets the timing, pacing, delivery and index invariants |
| Protocols.OwedIsQueued | app/cases/attention_scheduler.py:9-38 | Among the workers of a deployment, what is queued for a case carries the request it was owed in a row that was not sent, unless a delivery for the case was committed after the last one was read |
| AttentionHandlers.Judge | app/cases/attention_handler.py:31-33 | By a case, a delivery and an instant: owed exactly when the policy returns this very request |
| AttentionHandlers.FirstLook | app/cases/attention_handler.py:23-40 | The look before the lease passes exactly when the case, the delivery and the clock, each as stored at its own read, owe this very request; an unreadable case raises, anything else suppresses |
| AttentionHandlers.HandleAttention | app/cases/attention_handler.py:35-74 | The outcome is determined: the request is announced exactly when it is seen owed twice, the lease is free in between, the deadline holds and the transport delivers; every other way to end is matched to its cause |
| AttentionHandlers.AnnouncedIff | app/cases/attention_handler.py:35-74 | A request is announced exactly when both looks see it owed, the lease is granted in between, no deadline passes, and the transport delivers it or finds a new one superseded by a card verified by then; the delivery tells the request's own fields |
| AttentionHandlers.NoLongerDueIff | app/cases/attention_handler.py:39-51 | A call ends as no longer due exactly when a look could read the case and its delivery and saw anything else owed |
| AttentionHandlers.SecondLook | app/cases/attention_handler.py:48-51 | Inside the window, with other workers between its three reads, the request's own check is recorded exactly when what was read still owes it |
| AttentionHandlers.CloseWindow | app/cases/attention_handler.py:63-74 | The lease is kept exactly for a delivery to commit; otherwise it is given back, or runs out if that fails |
| ReportHandlers.JudgeReport | app/cases/handlers.py:98-113 | A reminder is fit to send exactly when its anchor, signature and eligibility match the projected case |
| ReportHandlers.Read | app/cases/handlers.py:98-113 | The verdict is the one that the case, the outstanding attention, the delivery and the clock give, each as stored at its own read |
| ReportHandlers.HandleReport | app/cases/handlers.py:227-259 | The lease is taken exactly where the source takes it, and the outcome is determined by what the reads saw, whether the lease was free, the deadline and the answer of the transport; a report delivered without a lease stamps its case |
| ReportHandlers.FitIff | app/cases/handlers.py:98-113 | A first report needs its case only; a reminder needs no outstanding attention, the later of the two clocks as its anchor, the state it was requested for, and a reminder that is due |
| ReportHandlers.ReportAnnouncedIff | app/cases/handlers.py:227-259 | A report becomes a delivery of its case exactly when it goes by attention's turns, is granted the turn, is in time and no card update, and the transport delivers what is still fit; the delivery tells the case as it was read |
| ReportHandlers.OffTurnOutcome | app/cases/handlers.py:227-240 | Off turn the outcome is determined by the case, the fitness and the transport alone |
| ReportHandlers.StampedIff | app/cases/handlers.py:206-209 | Off turn exactly a delivered report that is no card update stamps its case, with its own state and instant |
| ReportHandlers.LookAndCheck | app/cases/handlers.py:98-113 | Under the lease, with other workers between its reads, the check is recorded exactly when what was read makes the report fit to send |
| OutboxProcessors.OutboxProcessor.TryClaim | app/cases/outbox.py:69-80 | A claim is taken if and only if the row, at the compare-and-set, still has the status and token it was read with; the stored row is then in progress under a token never used before |
| OutboxProcessors.OutboxProcessor.Settle | app/cases/outbox.py:89-129 | The worker's own write leaves its row failed or succeeded, or the claim was lost |
| OutboxProcessors.OutboxProcessor.SettleDelivery | app/cases/outbox.py:113-129 | A delivery result is committed exactly when lease, sequence and claim still match |
| OutboxProcessors.OutboxProcessor.ProcessOne | app/cases/outbox.py:63-134 | One candidate, with the states it passed: unhandled exactly for its kind, not claimed exactly when its row was written since it was read, and otherwise claimed, handled as its handler's contract says, and settled by the write that result calls for |
| OutboxProcessors.OutboxProcessor.ProcessCandidates | app/cases/outbox.py:61-135 | Every candidate in order has its turn, each begun after the one before it and each ending as ProcessOne says, and the counters are the tally of the outcomes |
| OutboxProcessors.TriedMeans | app/cases/outbox.py:63-134 | What a turn's outcome means, told by rows and states: passed over, not claimed, or claimed for ten minutes; only a handler that raised ends failed |
| OutboxProcessors.RaisedIsRetried | app/cases/outbox.py:89-103 | A handler that raised leaves its row failed, and due again exactly when the backoff has passed |
| OutboxProcessors.SentIsAnnounced | app/cases/outbox.py:83-129 | An attention row that ends completed was announced exactly when it was seen owed twice under its lease and the transport delivered, and then its request is the last delivery of the case and its row says so |
| OutboxProcessors.TallyAddsUp | app/cases/outbox.py:61-135 | Each counter is the number of outcomes of its kind; succeeded, failed and skipped add up to the candidates, and processed are those claimed |
| OutboxProcessors.OutboxProcessor.RecoverOne | app/cases/outbox.py:142-151 | After recovery the lapsed claim holds its row no more |
| OutboxProcessors.OutboxProcessor.RecoverFirst | app/cases/outbox.py:140-151 | No report claim that had lapsed when the pass began holds its row after recovery, with other workers between the writes |
| OutboxProcessors.OutboxProcessor.DueIntents | app/cases/outbox.py:137-156 | After lapsed claims were put back: exactly the rows that were pending when those were listed, then exactly the failed ones whose retry time had come, each once and oldest first |
| OutboxProcessors.OutboxProcessor.ProcessPending | app/cases/outbox.py:51-53 | Lapsed claims are put back, the due rows are listed exactly, and each of the first up to the limit has its turn in order, counted as specified |
| OutboxProcessors.OutboxProcessor.ProcessIntent | app/cases/outbox.py:55-59 | Immediate processing is refused exactly for an intent that is not pending; otherwise it is one turn |
| Investigation.ClaimIsJustified | app/cases/service.py:331-352 | A claim that commits is allowed by the policy for the stored row at that moment, although it was tested on an older copy |
| Investigation.OneWinner | app/cases/postgres.py:331-384 | Of any number of workers with the same snapshot at most one wins |
| Investigation.SecondClaimIff | app/cases/postgres.py:350-366 | A snapshot wins a second time at once exactly when the first claim changed none of the compared fields |
| Investigation.AgainAfterCooldownIff | app/cases/service.py:306-329 | After a result an unchanged case that is not over is investigated again exactly when the cooldown has passed, and after a failure the retry time |
| Investigation.ChangedSignalIsDue | app/cases/service.py:313-327 | A new signal is investigated at once, except that after a failure the retry time is waited for; a case never investigated is due |
| Investigation.StampTells | app/cases/service.py:1173-1174 | A result is filed under the signal, without one the fingerprint, and without either the case id |
| Investigation.InvestigationSlot.ClaimInvestigation | app/cases/service.py:331-352 | The claim succeeds exactly when the snapshot may be investigated, the stored case is not over and its three compared fields are those of the snapshot, and writes the whole new row |
| Investigation.InvestigationSlot.RecordInvestigationResult | app/cases/service.py:355-389 | The result is stamped on the row |
| Lhp.EnteredFrom | app/cases/lhp.py:65-82 | The transition table read the other way: the statuses each status can be entered from |
| Lhp.EndsIff | app/cases/lhp.py:213-218 | A handoff ends exactly where the table leads nowhere; only the verifier's own loop may ask for verified or resolved; every other move follows the table or repeats the status |
| Lhp.CaseStatusIff | app/cases/store.py:74-89 | The handoff statuses behind each status of a case |
| Lhp.CaseEndsIff | app/cases/postgres.py:1193-1198 | The four statuses of a case that is over |
| HandoffRuns.TerminalAbsorbs | app/cases/lhp.py:65-82 | Resolved, cancelled and expired are absorbing under every store operation |
| HandoffRuns.UpdateNeverVerifies | app/cases/postgres.py:1167-1175 | No update from any loop, with or without an override, moves a handoff to verified or resolved |
| HandoffRuns.HandoffStep | app/cases/lhp.py:213-223 | One step moves a stored handoff along the transition table or not at all, and keeps its identity |
| HandoffRuns.ResolvedWentThrough | app/cases/postgres.py:1371-1440 | Every run that resolves a handoff took it through in_progress, then implemented, then verified |
| HandoffRuns.RunUnique | app/cases/postgres.py:937-1021 | At most one live handoff per case, target loop and objective key, and one per idempotency key, in every reachable ledger |
| HandoffRuns.AcceptedStaysAccepted | app/cases/postgres.py:1128-1154 | An accepted update stays on record, so later deliveries of it are recognised |
| HandoffRuns.DuplicatesAreInvisible | app/cases/postgres.py:1128-1154 | Inserting duplicates of accepted updates anywhere in a run leaves the whole ledger equal to the run without them |
| LedgerStores.LedgerStore.CreateHandoffWithObjectives | app/cases/postgres.py:937-1021 | A request is answered by the oldest stored handoff for the same key or the same live work, and otherwise opened; either way the handoff is returned with the objectives filed under it, in order of creation |
| Ledger.OpenedIff | app/cases/postgres.py:937-1021 | A handoff is opened exactly for a known case with at most twenty objectives of its own, when no stored handoff has its key, its id, or its work while still alive |
| Ledger.OpenDoes | app/cases/postgres.py:1989-2017 | Opening stores the handoff, shows it on its case, and files each objective under it without checks, with the identifier and creation time of the row it replaces; no other row is touched |
| LedgerStores.LedgerStore.AppendHandoffUpdate | app/cases/postgres.py:1119-1210 | An update is known, refused for a stated reason, or stored with the handoff and its case moved together |
| Ledger.UpdateStoredIff | app/cases/postgres.py:1119-1176 | An update is stored exactly when it is new, names a known case and that case's handoff, asks for neither verified nor resolved, and repeats the status or follows the table |
| Ledger.UpdateMovesCase | app/cases/postgres.py:1176-1206 | An update that does not end its handoff moves it, and its case takes the statuses sent along or keeps its own and shows the handoff's; no other case, handoff or objective changes |
| Ledger.EndedHandoffPassesOn | app/cases/postgres.py:1176-1206 | When an update ends a handoff its case takes over the status of the newest handoff still live, or shows the ended one and goes back to investigation if none is; a case that is over keeps its status |
| LedgerStores.FindSurvivor | app/cases/postgres.py:1177-1192 | The newest other live handoff of the case |
| Ledger.NewerOrder | app/cases/postgres.py:1178-1186 | Of two handoffs the one updated last is newer, then the one opened last, then the greater id |
| LedgerStores.LedgerStore.MarkHandoffVerified | app/cases/postgres.py:1371-1403 | Any handoff whose status allows it is moved to verified together with its case; every other call is refused |
| Ledger.MarkedIff | app/cases/postgres.py:1371-1403 | Marking succeeds exactly for an implemented or verified handoff of a known case, and moves both |
| LedgerStores.LedgerStore.ResolveCaseWithOutcome | app/cases/postgres.py:1405-1440 | Resolution moves a verified handoff and its case, or the case alone, or is refused |
| Ledger.ResolvedIff | app/cases/postgres.py:1405-1440 | Resolution succeeds exactly for a known case with a verified or resolved handoff, or on its own, and writes status and reason |
| LedgerStores.LedgerStore.UpdateObjectiveResult | app/cases/postgres.py:1258-1299 | A whole row is written over the stored one of the same identity, whatever that has become, and no other; only a missing row is refused |
| LedgerStores.LedgerStore.RecordCheck | app/main.py:2543-2564 | A check of any version ever read is written over the row as it is by then |
| Ledger.CheckIsRecorded | app/cases/verifier.py:193-219 | A check overwrites its row with the version it read: a pass counts one more and is enough at the number needed, anything else starts over and is itself the status |
| LedgerStores.LedgerStore.SkipCancelled | app/cases/service.py:742-753 | Cancelling writes one skip for each pending objective it read under the handoff, with other writers in between |
| Ledger.SkipIsRecorded | app/cases/service.py:742-753 | A skip overwrites its row with the version it read, without a next check, and is no check |
| LedgerStores.LedgerStore.AllSatisfied | app/cases/verifier.py:109-118 | Whether required objectives exist for the handoff, and whether all of them are satisfied |
| VerifierRuns.RunTallyIff | app/cases/verifier.py:82-89 | Over a run with stale writes allowed, pass counts equal the all-pass suffixes of the recorded checks at every point if and only if every write started from the stored count |
| VerifierRuns.CheckCountsIff | app/cases/verifier.py:211-216 | One check leaves a true count exactly when it did not pass or the count it read is the stored suffix |
| VerifierRuns.SkipCountsIff | app/cases/service.py:742-753 | A skip leaves a true count exactly when the count it read is the stored suffix |
| VerifierRuns.RunAgreesIff | app/cases/postgres.py:1258-1299 | Over a run every row's handoff, required flag, required status and number of passes needed are those it was last defined with, at every point, if and only if every check and skip wrote from a version of that definition |
| VerifierRuns.AgreedStepIff | app/cases/postgres.py:1989-2017 | From rows that agree with their definitions, a step keeps the agreement exactly when its write started from a version of the last definition |
| VerifierRuns.RunTally | app/cases/verifier.py:193-219 | When writes start from stored counts, the pass count is the length of the all-pass suffix of the checks recorded since the row was defined, and the row reads pass exactly when that reaches what it needs |
| StaleChecks.StaleCheckVerifies | app/cases/verifier.py:66-89 | A concrete run from an empty ledger that verifies a handoff needing two passes in a row after pass, fail, pass |
| StaleChecks.StaleOwnerVerifies | app/cases/verifier.py:113-116 | A concrete run, with every count current, that verifies a handoff although a required objective filed under it only ever failed |
| StaleChecks.StaleNeedVerifies | app/cases/verifier.py:221-222 | A concrete run, with every count current, that verifies a handoff after one pass of an objective last defined to need two |
| VerifierRuns.SuffixIsPasses | app/cases/verifier.py:193-219 | The suffix counter reaches n exactly when the last n results were passes |
| VerifierRuns.VerifiedAfterPasses | app/cases/verifier.py:109-119 | In every run, stale writes included, a handoff becomes verified only after a look that found a required objective, each one requiring pass and last written by a check that passed |
| VerifierRuns.VerifiedOnlyIfProven | app/cases/verifier.py:109-119 | When writes start from stored counts and current definitions, that look found the last required results of every required objective filed under the handoff to be passes, as many as its definition needs |
| VerifierRuns.ClearsIffProven | app/cases/verifier.py:109-118 | On rows with true counts and current definitions a look clears a handoff if and only if every required objective filed under it ends in the passes it needs, and there is one |
| VerifierRuns.ProvenIsResolved | app/cases/verifier.py:109-141 | In a run with current writes, once the objectives of an implemented handoff are proven, a look, a mark and a resolution take it and its case to resolved |
| VerifierRuns.UnusualRequirementBlocks | app/cases/verifier.py:221-222 | An objective whose required status is not pass blocks verification in every run, stale writes included |
| Verifier.CountsAddUp | app/cases/verifier.py:76-81 | Every due objective is counted once, passes as passed, fails as failed and all else as unknown |
| Verifier.RunsGrow | app/cases/postgres.py:1258-1299 | No run forgets a row version, a clearing or a handoff, or changes whose a handoff is |
| Verifier.DueIff | app/cases/postgres.py:1301-1316 | A row is due while it neither passed nor was skipped, from its next check on, unless its handoff is unknown or has ended |
| Verifier.DueAgainIff | app/cases/verifier.py:228-232 | A recorded check puts its row off until its next check, and for good when it made the row pass or skipped it |
| Verifier.CaseVerifier.ListDue | app/cases/postgres.py:1301-1316 | The first due rows in order of check time, creation and identifier, up to the limit, joined on the handoff column |
| LedgerStores.CheckingOrder | app/cases/postgres.py:1301-1316 | Rows without a check time come first, then the earliest; then the older row |
| Verifier.CaseVerifier.RunOnce | app/cases/verifier.py:59-107 | With other writers between its steps, a pass records the checker's answer for each due row in order, then decides on every handoff touched, each once in id order, to the end unless one raises, and counts the verified and the resolved |
| Verifier.CaseVerifier.MaybeVerifyHandoff | app/cases/verifier.py:109-141 | The decision, told by the log: passed exactly when the handoff was missing or over as read; otherwise a look, a mark exactly when the look cleared it, and a resolution exactly when marked with automatic resolution on; it raises exactly where the store refused |
| Verifier.VerifiedWhereMarked | app/cases/verifier.py:109-119 | A decision that verifies leaves the handoff verified where it was marked, after a look that cleared it |
| Verifier.RaisesIff | app/cases/verifier.py:119-133 | A decision raises exactly when the store refused to mark a handoff the look had cleared, or to resolve its case |
| Verifier.DecisionsAddUp | app/cases/verifier.py:93-97 | The report counts the decisions that verified, and those that also resolved |
| CaseCards.RecordIsHighest | app/case_cards.py:62-128 | In every run the record is the latest delivery of the highest accepted revision |
| CaseCards.RevisionMonotone | app/case_cards.py:62-128 | The stored revision never decreases |
| CaseCards.CreatesAreBounded | app/case_cards.py:96-128 | Creates are at most one plus confirmed deletions plus creates whose record was lost |
| CaseCards.StaleDeliveryIsNoOp | app/case_cards.py:91-100 | A delivery below an accepted revision changes nothing |
| CaseCards.FaithfulUnlessTorn | app/case_cards.py:100-128 | The live message stops showing the recorded payload exactly at an edit whose record was lost |
| CaseCards.LiveShowsHighest | app/case_cards.py:62-128 | Without such edits the live message always shows the payload of the highest accepted revision |
| CaseCards.DeliveryIsShown | app/case_cards.py:91-126 | A delivery that nothing hinders and that is not below the record is accepted, and unless its payload was shown within six hours the card's message then shows it: the old one if it exists, else a new one |
| CaseCards.OutcomeIff | app/case_cards.py:91-126 | A delivery below the record is superseded, with the time exactly when asked for and already past; any other is delivered exactly when what it needs gets through, and one that is not leaves the record as it was |
| CaseCards.HistoryCounts | app/case_cards.py:105-120 | Creates, confirmed deletions and lost creates count what one delivery did |
| CaseCards.TornEditHidesDelivery | app/case_cards.py:100-128 | A concrete run in which an edit whose record was lost hides a later accepted delivery |
| CaseCards.RepairedIff | app/case_cards.py:100-128 | A message that differs from the record agrees again exactly at an edit that is recorded or restores the recorded payload, or when the message is deleted |
| CaseCards.FaithfulIff | app/case_cards.py:62-128 | A run ends with the message showing the recorded payload if and only if every edit that lost its record was repaired later |
| CaseCards.CardChannel.DeliverCaseCard | app/case_cards.py:42-134 | One delivery: skip, edit with retries, create on not found, and persist, as specified |
| Correlation.RunConsistent | app/cases/correlation.py:142-259 | After any attaches, detaches and independence changes every attached child is listed by its meta-case without duplicates, live meta-cases list only their own, and a child is covered exactly while attached and not independent |
| Correlation.OneActiveOwner | app/cases/correlation.py:142-191 | At most one meta-case that is not split, merged, resolved or closed lists a given child |
| Correlation.AttachRefusedIff | app/cases/correlation.py:142-191 | An attach of existing rows is refused exactly when another live meta-case owns the child |
| Correlation.DetachUndoesAttach | app/cases/correlation.py:193-228 | Detaching a freshly attached child restores the meta-case's list and frees the child |
| Correlation.AttachDoes | app/cases/correlation.py:142-191 | An attachment lists the child, and its resource, after what was listed, covers it unless it is independent, and touches no other row |
| Correlation.DetachDoes | app/cases/correlation.py:193-228 | A detachment takes the child off the list and frees it if it was attached there; what was affected stays, and so does a child of another meta-case |
| Correlation.IndependentDoes | app/cases/correlation.py:230-259 | The mark alone decides whether an attached child is covered; a free one never is |
| Correlation.CorrelationService.AttachChild | app/cases/correlation.py:142-191 | The rows change as specified or not at all, and the relation stays consistent |
| Correlation.CorrelationService.DetachChild | app/cases/correlation.py:193-228 | The rows change as specified or not at all, and the relation stays consistent |
| Correlation.CorrelationService.MarkIndependentActionRequired | app/cases/correlation.py:230-259 | The rows change as specified or not at all, and the relation stays consistent |
| ReportEmbed.BudgetReportEmbed | app/cases/handlers.py:262-275 | For any input the embed totals at most 5900, keeps the first ten fields in order, shows at least min(own length, 182) characters of each name and value, and gives each field an equal share of what the earlier ones left |
| ReportEmbed.BudgetFields | app/cases/handlers.py:268-274 | The loop keeps 364 characters per remaining field in hand, so no field is starved, and cuts each to its share, 256 and 1024 at most |
| ReportEmbed.ShareLeavesRoom | app/cases/handlers.py:270-274 | Taking at most an equal share leaves every later field its 364 |
| ReportEmbed.ClipKeepsPrefix | app/cases/handlers.py:614-616 | Clipping keeps short text whole and cuts long text to a marked prefix |
| ReportEmbed.EmptyIsShown | app/cases/handlers.py:271-272 | Empty text is shown as a dash and a nameless field as Details |

## Left out

- HandleAttention, HandleReport: a transport answers with any of sent, refused, withheld, superseded or an exception; rendering, verbosity levels and message contents are not modelled
- Timing.NoOverlap: one clock is assumed, a claim reaches its handler within 420 s of the reading its expiry was computed from, and a lease its send within 60 s; without that slack the source gives no such guarantee
- CompleteAttention: the report stamp and the delivery stamp are one reading of the clock, and the audit event is not kept
- DeliverUnleased: a report sent without the attention lease is not part of the delivery history the pace theorems speak about
- HandleReport: card updates that first refresh the case facts are one send; the request for a missing prerequisite report is a step of another worker
- VerifierRuns.RunTallyIff: objectives are taken to be defined fresh, pending with no passes, as the service defines them
- HandoffRuns.ResolvedWentThrough: assumes handoffs are opened as requested, which is how the service opens them
- CaseVerifier.MaybeVerifyHandoff: the required objectives of a handoff are read in one query and decided on in the same step
- Ledger.OpenDoes: a request that names one objective key twice defines its row twice, the last one standing; the effect is told for distinct keys
- ReportKeys.ReportRowIsItsOwn: digests are sixteen hexadecimal characters and tell apart the reported state from every other that was filed; the text of an instant tells it from every other
- Progress.NeverStuck: that workers get their turns is not modelled; the run exists, and one worker suffices
- Investigation.OneWinner: write stamps are taken to be later than the stamp they replace
- RunConsistent: a meta-case that is over stays over, since nothing in the source reopens one
- Paging.SweepVisitsOnce: case ids are ordered by code point, as the in-memory store orders them; a database collation may order them differently
- QueryAgreesWithPolicy: deadlines are absent, well formed or rejected by both parsers; texts that only one of Python and PostgreSQL accepts are not modelled
- DeliverCaseCard: a state file that cannot be read counts as no record, and an edit or create that times out after taking effect is not modelled
- RecordClean: the policy switch `require_positive_clean_for_resolve` is at its default
- The crash-safe report spool (`app/cases/report_spool.py`): its conservation claim is easier than what is proved here
- The unconditional `update_outbox`, external ids, urls, error texts and completion times of outbox rows: nothing in the protocol reads them
- Creating cases from observations, alias resolution, case numbers and case links: only the opening of a case row is an event
- Event logs of cases, metrics, logging, configuration, HTTP routes, the Discord bot and the agent graph
- Unparsable claim expiry and retry times: instants are always well formed
