# Verification of the managed-agent job protocol

A server hands durable jobs (backups, checks, prunes, scripts) to agents over a link that breaks, and
both sides keep state about them: the server rows in a database that many handlers write at once, the
agent a registry of live workers and a store of outcomes the server has not acknowledged. This project
models both sides and proves what the protocol is for: a job is not run again while it runs or while
its result is on its way, a verdict is never reopened, a cancel is never undone, and the lines of a dead
run never pass for the new run's. Where the code falls short of that, a run shows it and a theorem says
exactly when. The second part proves seven incremental algorithms of the repository equal to slow, obvious
specifications.

`dafny verify dfyconfig.toml` checks everything.

## How it is built

| module | what it is |
|---|---|
| `JobRows`, `JobRaces`, `JobOutcomes` | the job row, the linked operation, and every transaction that writes them; each transaction takes the copy its handler decided on next to the rows its guarded write meets, so a run of transactions is any interleaving of reads and writes; the laws of every run; what each report and requeue comes to, told without the functions that compute it |
| `JobHandlers` | the same handlers as methods on mutable records, each proved to commit its transaction |
| `JobLogs`, `LogContents`, `JobClaims`, `LateLines` | the stored log across requeues; what is left of it, row by row; the same with the transactions that write the claim its lines are checked against; the log file that late lines complete |
| `AgentRequests`, `Outcomes` | what an answer to a report means; the store of unacknowledged outcomes and its retry clock |
| `WorkerRegistry`, `AgentSession` | the registry of workers, cancel events and the upgrade claim: as values, and as the class under its lock |
| `AgentModel` | one agent process as a transition system, a step being what one thread does under one lock hold |
| `JobProtocol`, `ProtocolRuns`, `JobEnds`, `TimingLimits`, `RefusalRequeues` | server, network and agent together, built on `JobRows` and `AgentModel`; runs of it; what a committed report ends; on which links its theorems hold; exactly when what they except can happen |
| `PaddedReader` | the reader that keeps an upload alive with bare newlines |
| `RepositorySizes`, `PresenceRanges` | the two-cursor walk; the per-series open and close machine |
| `ChainCollapse` | ancestors, roots and collapsing of operation chains that may be cyclic |
| `BorgFlags`, `BorgFlagRules`, `BorgOptions` | the flag normaliser; its rules one by one; the option tables it is used with |
| `Utf8`, `BoundedCapture` | truncation to whole characters; the byte-budgeted capture |
| `Wrappers`, `IdLists` | options and results; sorted ids |

Times are microseconds in the server's modules, since an attempt is named by its claim time in this
unit, and seconds as reals on the agent.

## What the proofs rest on

`JobProtocol` assumes of the network and the clock: hellos are handled in the order their sessions were
opened; frames of a session the agent has left are lost; on the live session a command is read within
a delivery time of its dispatch, and a heartbeat is handled within a transit time of being sent or not
at all. Both times are parameters. The theorems hold for all that together stay below the two-minute
window of `app/api/agents.py`, and for no others (`TimingLimits.SafeExactlyBelowWindow`); without
heartbeats they hold for any delivery time (`TimingLimits.HellosNeedNoBound`). A hello may take any
time. The agent process does not restart. `_mark_agent_job_claimed` (app/api/agents.py:1200-1206) is an
unguarded read and write; the acknowledgement is taken as one step.

`JobLogs` takes the pattern that recognises a removed archive and the wording of the requeue note as
parameters, and asks of them that the pattern matches neither the empty line nor the note. `BorgFlags`
is proved for any option tables in which every name is `-x` or starts with `--`, and holds neither `=`
nor a control character; `BorgOptions` has the tables of agent/borg_ui_agent/borg_flags.py and proves
that theirs do.

## Where the code does less than it promises, and exactly when

- A requeued job can still hold the report of a worker that an upgrade refused, because that worker
  leaves the registry before it keeps the failure (agent/borg_ui_agent/session.py:940-954):
  `ProtocolRuns.RefusedJobIsReadAgain`. `JobProtocol.RequeuedJobHoldsNothing` has the guarantee for all
  other jobs, and `RefusalRequeues.RequeuedReportedExactly` the states from which it can happen.
- An early cancel can replace a real outcome. The cancel command looks for a kept outcome and keeps its
  own report in two steps (agent/borg_ui_agent/session.py:920-930), although the comment there says a
  canceled report would take the place of the real outcome: `AgentModel.EarlyCancelOverwrites`, and
  exactly when in `AgentModel.OverwritableExactly`.
- The REST upload of a log line checks the attempt on the copy it loaded and commits later, so that a
  line of a dead run can be stored as the new run's: `JobLogs.UploadRace`. A start report whose handler
  loaded the job without a claim writes its own time over the claim of a later dispatch, which the lines
  of that run name: `JobLogs.StartClaimDropsLines`. Exactly when either goes wrong in
  `JobLogs.OnlyCurrentExactly` and, over transactions and lines, `JobClaims.RowsStayCurrentExactly`.
- The server puts no limit on the age of a heartbeat it handles. When a command and a heartbeat together
  are under way for the two-minute window, a job is requeued while its worker runs, and its command is
  read a second time: `TimingLimits.HeldJobIsReadAgain`, and exactly when in
  `TimingLimits.SafeExactlyBelowWindow`.
- A start report moves a queued job to running, where it waits for the agent's next list:
  `JobRaces.LateStartRevivesQueuedJob`, exactly when in `JobRaces.QueuedRunsExactly`, and what follows
  in `ProtocolRuns.UndispatchedJobWaits`.
- An answer to a report acts on whatever the store holds for the job by then, and exactly when it finds
  something else is in `Outcomes.SettlesWhatItReportedExactly` and `Outcomes.TimelyExactly`. A late refusal
  can put a plain failure in an empty place (`Outcomes.StaleRefusalRevives`), and a newer outcome can leave
  the store with the older one's answer, so that its keeper sends it once and nothing is kept to send it
  again (`Outcomes.NewOutcomeIsNotRedelivered`).
- A start report of a backup and the requeue of a skipped one reopen an operation that has a verdict;
  nothing else does: `JobRaces.ReopensExactly`.
- A first late line that is empty loses its newline when the next one is appended:
  `LateLines.EmptyFirstLineLosesItsNewline`, and exactly when in `LateLines.AppendIsRebuildExactly`.
- The capture can lose an empty last line that would still fit (`BoundedCapture.EmptyLastLineIsLost`,
  exactly when in `BoundedCapture.CaptureOf`), and can take bytes of later lines behind a cut
  (`BoundedCapture.LaterLineIsTakenAfterCut`, exactly when in `BoundedCapture.GoesOnBehindCutExactly`).

## Model

| member | source | states |
|---|---|---|
| JobRaces.StepKeepsLaws | app/api/agents.py:1209-1274 | no single transaction of any handler, whatever stale copy it decided on, breaks the laws: job row and operation tell the same story, one settling write, at most one report told that it won, one start notification |
| JobRaces.ReportKeepsLaws | app/api/agents.py:1277-1299 | the same for start, progress and terminal reports, which lock the job row before the operation's |
| JobRaces.RequeueKeepsLaws | app/api/agents.py:613-706 | the same for the requeue, including its request-scoped failure and the cancel that commits between its read and its write |
| JobRaces.EveryRunKeepsLaws | app/api/agents.py:1361-1387 | the laws hold after every interleaving of any number of transactions, not only from a new job |
| JobRaces.LinkedRowAgreement | app/api/agents.py:921-989 | from a freshly created job on: once the job is final its operation has the matching verdict, except for the failures somebody else closes (deferred lock failure, request-scoped job lost with its session, abandoned in the queue, reaped maintenance job), where it is still open |
| JobRaces.StartIsAnnouncedOnce | app/api/agents.py:1258-1274 | over all requeues and both transports one start notification goes out if the job is a backup's and some start report in the run landed, its loaded job and the row both unfinished, and none otherwise |
| JobOutcomes.CompletionReportStands | app/api/agents.py:1390-1483 | the first completion report on an unfinished job fixes, through every later run of transactions, status, end, error and kept code of the job by exit code, whether a script ran, and deferral, and status, end, progress and start of its operation; it settles and wins once, and leaves claim and starts alone |
| JobOutcomes.FailureReportStands | app/api/agents.py:1486-1555 | the first failure report fixes in the same way `failed`, its message and its code, and closes the operation as failed unless the failure is deferred, which leaves it as it was |
| JobOutcomes.CancelReportStands | app/api/agents.py:1602-1631 | the first canceled report fixes in the same way `canceled` on the job and `cancelled` on the operation, with result and error untouched |
| JobOutcomes.FirstStartStands | app/api/agents.py:1209-1274 | the first start report that lands fixes, through every requeue and further start, when the work began: the marker of the notification, a backup's start, and the start of an open maintenance operation that had none |
| JobOutcomes.StartReportLands | app/api/agents.py:1209-1274 | what one landing start report leaves in both rows: a requested cancel kept, what the handler saw missing filled in, the verdict of a maintenance operation respected |
| JobOutcomes.ProgressReportLands | app/api/agents.py:898-918 | what one landing progress report leaves in both rows: a sign of life, an open operation running, one with a verdict untouched |
| JobOutcomes.LoadedCancelIsSettledExactly | app/api/agents.py:649-654 | a cancel that the requeue loaded and the row still has is settled, with its operation, if and only if the list is a hello's or the job has been silent for two minutes; otherwise nothing changes |
| JobOutcomes.RequeueOutcomeExactly | app/api/agents.py:613-706 | for every copy and every row: whether a list that misses the job gives it up, by status, age, start, and what the list is; and what becomes of both rows then: cancelled, failed with its session, queued again, or left alone because another write came first |
| JobOutcomes.ReapsExactly | app/services/agent_job_reaper.py:101-147 | a job in flight that was loaded silent for fifteen minutes is failed with the backup that rides on it, and no other |
| JobOutcomes.TimesTellTheStory | app/api/agents.py:1361-1387 | over all runs: a job has an end exactly if it is finished, an operation exactly if it has a verdict, and full progress exactly if it completed |
| JobOutcomes.WritesStampTheRow | app/api/agents.py:637-647 | whatever any transaction writes it stamps the row with its time, which is what the requeue goes by |
| JobRaces.ReopensExactly | app/api/agents.py:886-895 | a transaction reopens an operation that has a verdict if and only if it is a landing start report of a backup, or a requeue that puts a skipped backup back; the guards of progress and maintenance reports hold |
| JobRaces.ClosedOperationStays | app/api/agents.py:1005-1022 | over any run of transactions and verdicts by other code, an operation once closed is closed in every state if and only if no step of those two kinds occurs |
| JobRaces.AgreementDespiteClosing | app/api/agents.py:921-989 | whatever verdict other code gives the operation before the job is final, the report that finishes the job puts the matching one in its place, with the exceptions of LinkedRowAgreement and a reaped job |
| JobRaces.FinalIsFrozen | app/api/agents.py:1225-1243 | a final job is frozen: any transaction on any copy changes at most the time of the last sign of life, wins nothing and notifies nobody |
| JobRaces.VerdictStands | app/api/agents.py:1361-1387 | a verdict stands through every later run of transactions, with its operation and all counters |
| JobRaces.OneWinner | app/api/agents.py:1390-1555 | of any number of racing, repeated or late terminal reports at least one that read the job as unfinished makes it final, exactly one write settles it, and at most one report is told so; exactly one when no requeue, reap or abandoned job settles it unasked |
| JobRaces.ReportSettles | app/api/agents.py:1602-1631 | after a report that read the job as unfinished, wherever in the run it comes, the job is final at the end |
| JobRaces.CancelSurvivesStep | app/api/agents.py:490-508 | no transaction moves a cancel-requested job anywhere but to a final state |
| JobRaces.CancelNeverUndone | app/api/agents.py:649-700 | no run of transactions takes back a cancel request |
| JobRaces.CancelBeatsRequeue | app/api/agents.py:511-543 | a cancel that commits between the requeue's read and its write wins: settled with its operation at a hello or after the window, left as it is on an earlier heartbeat |
| JobRaces.OnlyRequeueQueues | app/api/agents.py:613-706 | a job returns to the queue only by a requeue that decided to put it back and found the status it had read, which was claimed or running |
| JobRaces.QueuedRunsExactly | app/api/agents.py:1215-1243 | a transaction moves a queued job to running if and only if it is a start report whose handler did not load a final job |
| JobRaces.LateStartRevivesQueuedJob | app/api/agents.py:2259-2280 | both inputs: a start report whose handler loaded the job before the requeue, and one whose handler loaded it after |
| JobHandlers.JobRecord.ClaimTerminalTransition | app/api/agents.py:1361-1387 | the guarded terminal write on mutable fields: the whole row afterwards, and whether it was claimed |
| JobHandlers.JobRecord.FinishLinkedRows | app/api/agents.py:1025-1089 | the linked backup or maintenance operation after a verdict, field by field |
| JobHandlers.JobRecord.CompleteAgentJob | app/api/agents.py:1390-1483 | field by field the transaction the laws are about: classification of the return code, guarded write, linked row, and the answer whether it moved |
| JobHandlers.JobRecord.RecordFailure | app/api/agents.py:1511-1555 | the shared failure path, with a deferred lock failure leaving the operation open |
| JobHandlers.JobRecord.FailAgentJob | app/api/agents.py:1486-1555 | a failure report commits what the laws assume of it |
| JobHandlers.JobRecord.CancelAgentJob | app/api/agents.py:1602-1631 | a canceled report commits what the laws assume of it, leaving result and error |
| JobHandlers.JobRecord.SyncMaintenanceProgress | app/api/agents.py:1005-1022 | a maintenance operation is moved to running unless it is terminal, its start set once |
| JobHandlers.JobRecord.MarkLinkedRowStarted | app/api/agents.py:1264-1272 | the linked row of a started job; the notification is due exactly on the first start of a backup |
| JobHandlers.JobRecord.MarkAgentJobStarted | app/api/agents.py:1209-1274 | a start report commits what the laws assume of it, and is told to notify exactly when it claimed the marker |
| JobHandlers.JobRecord.ApplyAgentJobProgress | app/api/agents.py:898-918 | a progress report commits what the laws assume of it |
| JobHandlers.JobRecord.KeptPruneLines | app/api/agents.py:546-571 | one pass over the rows in sequence order keeps, row by row, just the lines that name a removed archive |
| JobHandlers.JobRecord.ResetRequeuedLog | app/api/agents.py:574-610 | the stored rows after a requeue: the kept lines renumbered to end at -2, then the note at -1; nothing at all for an empty log |
| JobHandlers.JobRecord.CancelIfRequestedMeanwhile | app/api/agents.py:511-543 | after a guard that missed: a cancel is settled on the spot, or waits out the window on a heartbeat |
| JobHandlers.JobRecord.Requeue | app/api/agents.py:637-700 | the loop body of the requeue on mutable rows commits the requeue transaction, and resets the log exactly when the job went back on the queue |
| JobHandlers.JobTable.RequeueStaleAgentJobs | app/api/agents.py:613-706 | the whole loop: every loaded job is treated on its own, every other job of the table is untouched |
| JobLogs.OnlyCurrentExactly | app/api/agents.py:2319-2379 | over all runs of both transports, with any dispatches, put-backs, start reports that write a claim time, and uploads between their read and their commit: the rows from 0 on are the current run's lines in every state if and only if no upload that committed a new number had the job put back between its read and its commit, and no new line of the live run arrived after a start report had written over its claim |
| JobLogs.LogsAcrossRequeues | app/api/agents.py:574-610 | after any such run in which neither happened: unique numbers, rows from 0 on exactly the current run's, and a prune's rows in sequence order name the removals of every finished run followed by the current one's; any other job keeps at most the note |
| JobLogs.NumbersStayUnique | app/api/agents.py:1302-1332 | sequence numbers are unique after every run, whatever was misfiled or dropped |
| JobLogs.EveryRunKeepsInv | app/api/agents.py:1302-1344 | preamble of negative numbers followed by the current run's lines, a claim time that names the live run or, after a start report wrote it, no run, and every upload in flight of the current run exactly if the job was not put back since its read, along every run in which neither happened |
| JobLogs.ResetKeepsRemovals | app/api/agents.py:546-610 | a reset keeps every removal the table named, in ascending negative numbers, and adds none |
| JobLogs.KeepingLosesNothing | app/api/agents.py:546-571 | cutting rows down to the lines that name a removal loses no such line and keeps their order |
| LogContents.RowStaysExactly | app/api/agents.py:546-571 | a row at any place of the log is kept if and only if it has a naming line, cut down to those lines, with its stream and its times |
| LogContents.LineStaysExactly | app/api/agents.py:560-568 | a line at any place of a row stays if and only if it names an archive |
| LogContents.ResetLogExactly | app/api/agents.py:574-610 | the whole table after a requeue, number by number: nothing of an empty log, of any other the kept rows of a prune up to -2 and the note at -1 |
| LogContents.LogIsResetExactly | app/api/agents.py:677-702 | the log is reset if and only if the requeue put the job back on the queue |
| JobLogs.SplitJoin | app/api/agents.py:560-568 | splitting joined non-empty lines gives the lines back |
| LogContents.SplitLosesNothing | app/api/agents.py:560-568 | joining the lines of any text gives the text back, but for a newline at its very end |
| JobLogs.InOrderSorts | app/api/agents.py:722-729 | rows read back in sequence order are all rows, sorted |
| JobLogs.MisfiledIsForeign | app/api/agents.py:2319-2379 | a misfiled commit leaves a row from 0 on that is no line of the current run |
| JobLogs.DroppedIsMissing | app/api/agents.py:1302-1344 | a line of the live run that arrives after its claim was written over is missing from the rows |
| JobLogs.UploadRace | app/api/agents.py:2319-2379 | a run of the model in which an upload is misfiled, and the new run's own line 0 is then dropped as a duplicate |
| JobLogs.StartClaimDropsLines | app/api/agents.py:1245-1247 | a run of the model in which a start report writes over a dispatch's claim and the run's own line is dropped as superseded |
| JobClaims.ClaimChangesExactly | app/api/agents.py:1200-1247 | of all transactions on all copies the claim is written by a claim or an acknowledgement of a queued job, by a landing start report whose handler had loaded none, and cleared by a requeue that puts the job back, which alone takes it back to the queue |
| JobClaims.EveryRunIsALogRun | app/api/agents.py:1335-1344 | every interleaving of the handlers' transactions with lines is a run of the log model, and the claim its lines are checked against is the row's |
| JobClaims.RowsStayCurrentExactly | app/api/agents.py:2319-2379 | from a fresh job on, over every such interleaving: the rows from 0 on are the current run's lines in every state if and only if no upload committed after a requeue that followed its read, and no new line of the live run came after a start report had written over its claim |
| LateLines.LogFile.CompleteFinishedLog | app/api/agents.py:1105-1190 | the file after one late line: appended when it is the last, rebuilt from all rows when not, untouched for an active job, a deferred failure or a file that is gone; equal to the join of all rows when it was so before and no line is empty |
| LateLines.LateLinesRefineCollect | app/api/agents.py:1139-1169 | for non-empty lines in any order of arrival, duplicates included, the file always equals the newline join of all rows sorted by sequence |
| LateLines.AppendIsRebuildExactly | app/api/agents.py:1147-1158 | appending a last line equals rebuilding if and only if there was no row before or the file is not empty |
| LateLines.EmptyFirstLineLosesItsNewline | app/api/agents.py:1147-1158 | the failing family has a member: one empty line followed by `done` |
| LateLines.CollectLast | app/api/agents.py:722-729 | collecting with one more last row adds a newline and its message |
| LateLines.RetentionWins | app/api/agents.py:1169-1190 | in every interleaving of a rewrite with log retention the file is gone once retention removed it and the rewrite is done, and present while an operation names it |
| LateLines.RewriteLooksAgain | app/api/agents.py:1169-1190 | the second look is needed: a rewrite can bring back a file that retention has just removed, and then removes it itself |
| AgentRequests.AgentClient.Request | agent/borg_ui_agent/client.py:267-313 | the retry loop: the first conclusive attempt decides, else the last, nothing is sent without a token, and the classified answer is what that attempt means |
| Outcomes.KeptOutcomes.Keep | agent/borg_ui_agent/outcomes.py:25-28 | a later outcome replaces the kept one and its retry clock |
| Outcomes.KeptOutcomes.RetryingSince | agent/borg_ui_agent/outcomes.py:35-42 | the clock starts once and never moves; a job that is not kept answers now and leaves the store alone |
| Outcomes.ClockIsSetOnce | agent/borg_ui_agent/outcomes.py:35-42 | the time of the first answer stays the clock through later ones |
| Outcomes.KeptOutcomes.Pending | agent/borg_ui_agent/outcomes.py:48-53 | every kept outcome once, by ascending job id |
| Outcomes.DeliverKeptOutcome | agent/borg_ui_agent/session.py:122-172 | what one answer does to the store, whether it still holds the reported outcome, nothing, or another one; and when it reports the outcome as settled |
| Outcomes.LeavesTheStoreExactly | agent/borg_ui_agent/session.py:122-172 | an outcome of any kind leaves the store if and only if it was taken or settled, or is no completion or failure and was refused, or put off for fifteen minutes since its clock started; and what every other answer leaves in its place |
| Outcomes.DeliveryChangesOneJob | agent/borg_ui_agent/session.py:122-172 | the answer to a report of what the store holds does just that to it, and nothing to other jobs' outcomes |
| Outcomes.StaysWhilePutOff | agent/borg_ui_agent/session.py:150-165 | an outcome of any kind is kept as it is through any number of reports that are put off or unanswered, until fifteen minutes after the first that was put off |
| Outcomes.SettlesWhatItReportedExactly | agent/borg_ui_agent/session.py:122-172 | an answer settles the outcome that was reported, and that alone, if and only if the store still holds it, or the answer changes nothing |
| Outcomes.TimelyExactly | agent/borg_ui_agent/session.py:403-419 | over any run of keeps and answers of several threads: every answer changes only the outcome it was given to if and only if each finds that outcome or is harmless |
| Outcomes.FaresByItsOwnReports | agent/borg_ui_agent/session.py:403-419 | while that is so, a held outcome fares as if its own reports were the only ones |
| Outcomes.LastKeepFaresByItsOwnReports | agent/borg_ui_agent/session.py:403-419 | whatever was held, kept and answered before: if the answers after the last keep find it or are harmless, the store ends as that outcome's own reports alone would leave it, its keeper's own send among them |
| Outcomes.NothingIsLostAmongThreads | agent/borg_ui_agent/session.py:403-419 | so after any run of keeps and answers, when a completion or failure was kept last and is gone, a report of its own was answered: taken, settled, or replaced by a plain failure that was answered |
| Outcomes.StaleRefusalRevives | agent/borg_ui_agent/session.py:150-172 | where it is not so: a refusal of a report that another thread has already had accepted puts a plain failure in place of nothing |
| Outcomes.NewOutcomeIsNotRedelivered | agent/borg_ui_agent/session.py:403-419 | and an outcome kept while an older one of its job is being reported leaves with that one's answer: its keeper still sends it, and when that report meets no answer nothing is kept to send it again |
| Outcomes.DeliverPendingOutcomes | agent/borg_ui_agent/session.py:685-696 | one pass works from the sorted list it took first, report by report, whatever other threads do to the store before each answer, and stops at the first report that meets no answer |
| Outcomes.PassSettlesUntouched | agent/borg_ui_agent/session.py:685-696 | an outcome no other thread touches meanwhile ends as its own answer says, or stays behind a report that met no answer |
| Outcomes.RealOutcomeNeedsConsent | agent/borg_ui_agent/session.py:140-172 | a completion or failure leaves the store if and only if it was accepted or settled; otherwise it stays or becomes one plain failure |
| Outcomes.SilenceChangesNothing | agent/borg_ui_agent/session.py:137-140 | without an answer nothing changes, for any number of attempts |
| Outcomes.NothingIsLost | agent/borg_ui_agent/session.py:122-172 | for the reports of one outcome: a completion or failure that is gone was taken or settled, or had become a plain failure that was answered in its turn |
| Outcomes.ReportLowersDeadline | agent/borg_ui_agent/session.py:150-165 | an answered report never moves the deadline of an outcome up |
| Outcomes.GoneInTime | agent/borg_ui_agent/session.py:150-165 | from any point of its life an outcome is gone by its deadline if every report is answered and none is later than the gap |
| Outcomes.SettledWithinTwoWindows | agent/borg_ui_agent/session.py:122-172 | every outcome is gone within two retry windows and four delivery gaps, whatever the answers are, if there is one each time |
| AgentSession.AgentSessionRuntime.RegisterCancel | agent/borg_ui_agent/session.py:1039-1051 | the registry with the job registered; an early cancel sets the new event and is consumed |
| AgentSession.AgentSessionRuntime.SignalCancel | agent/borg_ui_agent/session.py:1053-1063 | the registry with the job signalled, or the cancel remembered; True exactly when the worker reports it itself |
| AgentSession.AgentSessionRuntime.UnregisterCancel | agent/borg_ui_agent/session.py:1065-1070 | the job leaves every part of the registry |
| AgentSession.AgentSessionRuntime.UpgradeClaimed | agent/borg_ui_agent/session.py:991-997 | whether a claim is live now |
| AgentSession.AgentSessionRuntime.ReserveForUpgrade | agent/borg_ui_agent/session.py:999-1031 | empty exactly when reservable, and then claimed; otherwise the sorted jobs in the way, or -1 for another upgrade |
| AgentSession.AgentSessionRuntime.ReleaseUpgrade | agent/borg_ui_agent/session.py:1033-1037 | the claim is gone |
| AgentSession.AgentSessionRuntime.RunningJobIds | agent/borg_ui_agent/session.py:804-813 | the sorted union of registered jobs and jobs whose outcome is kept |
| AgentModel.StepKeepsInv | agent/borg_ui_agent/session.py:851-989 | every step of the session loop, a worker, a cancel thread, a delivery or an upgrade keeps the relation of registry, kept outcomes, owed outcomes, cancel flags and claims of every job |
| AgentModel.InvAt | agent/borg_ui_agent/session.py:472-520 | that relation in every state of every run |
| AgentModel.CancelIsNotLost | agent/borg_ui_agent/session.py:1039-1070 | in any order of command and cancel, a registered job's event is set exactly if it was cancelled, and a cancel of an unregistered job waits for it |
| AgentModel.CancelGoesOnExactly | agent/borg_ui_agent/session.py:1053-1063 | in every run a cancel command leaves the report to the worker if and only if one is registered whose kind cancels itself; otherwise its thread goes on to look for a kept outcome |
| AgentModel.CancelKeepsRealOutcome | agent/borg_ui_agent/session.py:912-930 | for a self-cancelling kind the cancel command replaces a run's kept outcome only if a cancel thread was under way when the job's command was received |
| AgentModel.OverwritableExactly | agent/borg_ui_agent/session.py:912-930 | when the command of a self-cancelling kind is received for a job that is not held, some continuation without a further command replaces the run's outcome if and only if a cancel thread that signalled nobody is under way |
| AgentModel.EarlyCancelOverwrites | agent/borg_ui_agent/session.py:912-930 | a seven-step run from the start in which it happens |
| AgentModel.ReservationSucceedsExactly | agent/borg_ui_agent/session.py:999-1031 | a reservation succeeds if and only if no job has a registered worker and no claim is live |
| AgentModel.ClaimStands | agent/borg_ui_agent/session.py:999-1037 | until its deadline a claim stands through every step but a release |
| AgentModel.NoHandlerStartsWhileReserved | agent/borg_ui_agent/session.py:940-954 | from a successful reservation on no worker passes the guard and no handler starts before the deadline, in every interleaving, unless the claim is released |
| AgentModel.ListingHasNoGap | agent/borg_ui_agent/session.py:804-813 | reading the registry first and the store later still lists every job that is held throughout, be it registered only or accepted and its outcome unsettled |
| AgentModel.LeftRunStaysKept | agent/borg_ui_agent/session.py:957-989 | once its worker has left the registry, an owed outcome is in the store until it is settled |
| AgentModel.RefusedJobIsInNeitherList | agent/borg_ui_agent/session.py:940-954 | a job refused by an upgrade is in neither list for a moment, since its worker unregisters before it keeps the failure; RefusalRequeues.RequeuedReportedExactly says what follows |
| AgentModel.OnlyRefusalsLeaveTraces | agent/borg_ui_agent/session.py:940-954 | only a refusal leaves a refusal's report, kept or still to keep |
| AgentModel.OnlyCommandsAdd | agent/borg_ui_agent/session.py:585-617 | only a received command makes the agent hold a job, and only a cancel command makes it report a cancel |
| JobProtocol.NoDoubleRun | app/api/agents.py:613-706 | over all runs of server, agent and network on any link whose delivery and transit times together stay below the window: whenever the agent reads a job's command no worker is registered for the job, no accepted handler's outcome is unsettled, the only reports that may still be kept are that of a worker an upgrade refused earlier and that of a cancel on a job whose cancel is requested or over, and no second command can follow |
| JobProtocol.RequeuedJobIsIdle | app/api/agents.py:613-706 | over all such runs, a job that a hello or heartbeat puts back on the queue has no worker and no readable command, and keeps nothing but at most the report of a worker an upgrade refused earlier in the run |
| JobProtocol.RequeuedJobHoldsNothing | app/api/agents.py:613-706 | over all such runs, unless an upgrade refused the job earlier in the run, a requeued job is neither registered nor holding an unacknowledged outcome |
| JobProtocol.RefusalHasCause | agent/borg_ui_agent/session.py:940-954 | in every run a refusal's report was left by a refusal |
| JobProtocol.StepKeepsInv | agent/borg_ui_agent/session.py:774-813 | the inductive invariant of the composed protocol: lists, sessions, times, commands and cancels agree with what the agent holds |
| JobProtocol.InvAt | agent/borg_ui_agent/session.py:547-653 | the invariant in every state of every run |
| JobProtocol.TransactionsBehave | app/api/agents.py:1200-1299 | a transaction other than a claim or requeue never queues a job, never reopens a final or cancelled one, and stamps the row when it changes the time |
| JobProtocol.DispatchKeepsInv | app/services/agent_job_dispatcher.py:48-100 | a dispatch claims a queued job and sends its one command on the connected session |
| JobProtocol.ReadCommandKeepsInv | agent/borg_ui_agent/session.py:585-617 | a job is registered when its command is read, before its worker exists |
| JobProtocol.LoadHelloKeepsInv | app/api/agents.py:613-648 | loading the jobs at a hello: what its list misses the agent does not hold, and what was sent on older sessions is lost |
| JobProtocol.LoadBeatKeepsInv | app/api/agents.py:637-648 | loading the jobs on a heartbeat: what its list misses although the agent holds it was dispatched within the two-minute window |
| JobProtocol.SettleJobKeepsInv | app/api/agents.py:649-700 | settling one loaded job, by whatever the copy said, keeps the invariant |
| JobProtocol.DeliverKeepsInv | agent/borg_ui_agent/session.py:122-172 | a report the server accepts, its transaction and the settling of the kept outcome, keeps the invariant |
| JobProtocol.CancelSurvives | app/api/agents.py:649-700 | a requested cancel survives every list, dispatch and report of every run |
| JobProtocol.SessionsOnlyGrow | agent/borg_ui_agent/session.py:547-653 | a frame of a session the agent has left is never read again |
| TimingLimits.SafeExactlyBelowWindow | app/api/agents.py:637-648 | on every link, none of its runs requeues a job the agent holds if and only if delivery and transit together stay below the two-minute window, or no heartbeat is handled; and in none is a command read for a job the agent holds if and only if they do |
| TimingLimits.HellosNeedNoBound | app/api/agents.py:613-648 | on any link, as long as no heartbeat has been handled, a list requeues no job the agent holds and no command is read for one, however late commands are delivered |
| TimingLimits.HeldJobIsReadAgain | app/api/agents.py:637-648 | on every link whose times reach the window a run in which a job is requeued while its worker is registered, and its command read a second time |
| ProtocolRuns.LostJobRunsOnce | app/api/agents.py:613-706 | the theorems are not vacuous: a run in which a command is lost, the job requeued at the next hello, dispatched again and received once |
| ProtocolRuns.RefusedJobIsReadAgain | agent/borg_ui_agent/session.py:940-954 | the exception is real: a run in which a refused job is requeued, and its command read again, while the report of the refusal is unsettled |
| ProtocolRuns.SentCancelArrives | agent/borg_ui_agent/session.py:1053-1063 | a cancel sent on the live session can be read and handled, and then the worker's event is set or the cancel waits for the worker |
| RefusalRequeues.RequeuedReportedExactly | agent/borg_ui_agent/session.py:940-954 | from any reachable state, without a further refusal, some continuation requeues the job with a refusal's report kept if and only if the row is unfinished, uncancelled and not request-scoped, and either a refused worker has its report still to keep, or the report is kept and a list misses the job: a hello still to be handled, the list at work whose copy decides so, or a heartbeat still in time when the window has passed |
| ProtocolRuns.UndispatchedJobWaits | app/api/agents.py:1200-1243 | a queued job that a report, an acknowledgement, a cancel request or a caller that gave up took off the queue waits: until a list of the agent's settles it, nobody runs it, it is not dispatched and no command for it is read |
| ProtocolRuns.TakenOffQueueExactly | app/api/agents.py:1200-1243 | which transactions other than a dispatch take a queued job off the queue, by kind and by the copy the handler loaded |
| JobEnds.CommittedReportEndsJob | app/api/agents.py:1361-1387 | over all runs: once the server has committed a terminal report while the agent holds the job, whether or not the answer arrives, the job is final in every later state, it is not dispatched again and no command for it is read |
| JobEnds.AcceptedReportEndsJob | agent/borg_ui_agent/session.py:403-419 | in particular once the agent has the answer that its run's report was accepted, and its outcome is kept no longer |
| JobEnds.ReadAfterCommitExactly | app/api/agents.py:1361-1387 | after the commit of any terminal report, that of a refused worker or of a cancel included, some continuation still reads a command for the job if and only if one was under way on the live session |
| JobEnds.LostJobIsCompleted | app/api/agents.py:613-706 | such runs exist: one in which a command is lost, the job requeued, dispatched again, received, run and reported, and the report accepted |
| PaddedReader.ActivityTrackingReader.Read | agent/borg_ui_agent/repository_ops.py:1361-1401 | one read: if the pipe is silent now, a bare newline at once and nothing taken; every silence padded by one newline, at a line start; whole lines otherwise, the held-back tail at the end, an error without a size; conservation of bytes and a decreasing measure |
| PaddedReader.ActivityTrackingReader.Turn | agent/borg_ui_agent/repository_ops.py:1371-1401 | one turn of the read loop pads if and only if the pipe is silent, keeps all of that and strictly uses up input unless it hands something out |
| PaddedReader.ActivityTrackingReader.Take | agent/borg_ui_agent/repository_ops.py:1385-1398 | bytes that arrive: whole lines go out, the rest is held back without a newline in it |
| PaddedReader.Upload | agent/borg_ui_agent/repository_ops.py:1318-1401 | for every schedule of chunks and silences: the body is the output byte for byte with bare newlines put in at line boundaries only, one for every silence before the end, the byte counter is the output's length, the reads come to an end, and the non-blank lines of body and output are the same |
| PaddedReader.PaddedReadsTheSame | agent/borg_ui_agent/repository_ops.py:1318-1340 | newlines put in at line boundaries change no non-blank line, whatever follows |
| PaddedReader.LineIsSeen | agent/borg_ui_agent/repository_ops.py:1318-1340 | the consumer this is about sees a line that is not blank, and goes on behind its end |
| RepositorySizes.AttachRepositorySizes | app/api/archive_index.py:335-376 | the one-pass walk gives every point what the slow search gives: the last sample from its start to the next distinct archive start, or what it had |
| RepositorySizes.SizeIsOfLastSample | app/api/archive_index.py:335-376 | what the slow search gives a point: the size of the last sample from its start on and before every later boundary, or what the point had, and never another start |
| RepositorySizes.WalkWindow | app/api/archive_index.py:366-374 | the cursor moves over one window, never back, and finds its last sample |
| RepositorySizes.BisectRight | app/api/archive_index.py:360-361 | how many boundaries lie at or before a start |
| RepositorySizes.NextStartIsNext | app/api/archive_index.py:360-361 | the slow search's upper bound is the least boundary above the start, or there is none |
| RepositorySizes.LastWithinIsLast | app/api/archive_index.py:366-374 | the slow search's size is that of the last sample in the window, or there is none |
| PresenceRanges.PresentRanges | app/api/archive_index.py:977-998 | the pass with its map of shared range objects computes the specification's ranges, in order |
| PresenceRanges.CloseRange | app/api/archive_index.py:994-996 | a removal closes the object the map points at, which is the only open range of the series |
| PresenceRanges.OneOpenExactlyWhilePresent | app/api/archive_index.py:977-998 | a series has one open range if its last add, modify or remove entry is not a removal, and none otherwise |
| PresenceRanges.EveryPresenceInOneRange | app/api/archive_index.py:983-996 | every added or modified entry lies in exactly one range of its series, by position |
| PresenceRanges.CoveredExactlyWhilePresent | app/api/archive_index.py:977-998 | a position lies in a range of the series, and in one only, if and only if the path was added or modified then or before and not removed since |
| PresenceRanges.IdsNamePositions | app/api/archive_index.py:986-995 | ranges in archive ids are the ranges by position with the ids of their ends |
| PresenceRanges.OtherSeriesChangeNothing | app/api/archive_index.py:981-996 | the ranges of a series are those its own entries alone give |
| ChainCollapse.PullInAncestors | app/api/activity.py:853-861 | the loop ends on every graph, cycles included, with the window and exactly its ancestors within the filters, each row once |
| ChainCollapse.Draw | app/api/activity.py:855-861 | one turn: what is drawn and what is missing next, and that rows were drawn or nothing is missing |
| ChainCollapse.RootId | app/api/activity.py:923-936 | the walk ends on every graph at the first end on the way up: an item under nothing, or one on a cycle |
| ChainCollapse.RootIsUnique | app/api/activity.py:923-936 | an item has at most one root |
| ChainCollapse.RootOfRoot | app/api/activity.py:923-936 | a root is its own root |
| ChainCollapse.AloneIsRoot | app/api/activity.py:918-936 | an item is its own root if it depends on nothing listed, or is no follow-up and depends on an item of another run |
| ChainCollapse.RidesWithItsDependency | app/api/activity.py:918-936 | any other that is on no cycle has the root of the item it depends on |
| ChainCollapse.OncePerVisibleRoot | app/api/activity.py:938-951 | an item is on the collapsed page exactly once when its root is visible, and nowhere otherwise |
| ChainCollapse.VisibleRoots | app/api/activity.py:940-945 | the rows are the visible roots, in the order the items were read |
| ChainCollapse.RowsKeepTheOrder | app/api/activity.py:940-945 | two rows of the page stand in the order in which their items were read |
| ChainCollapse.FileFollowups | app/api/activity.py:946-949 | under each row stand exactly the items whose root it is, by ascending id |
| ChainCollapse.CollapseRuns | app/api/activity.py:938-951 | every item has a root, and the page shows it once or nowhere as that root is visible or not |
| BorgFlags.ParseBorgFlags | agent/borg_ui_agent/borg_flags.py:146-223 | the parse loop computes the words of the settings read, or the reason of the first failure |
| BorgFlags.NextOption | agent/borg_ui_agent/borg_flags.py:184-222 | the body of the loop on the words from an index on, all of its errors included |
| BorgFlags.ReadsExactlyTheGrammar | agent/borg_ui_agent/borg_flags.py:184-222 | words are accepted with settings if and only if they spell them and every setting fits the command and the major |
| BorgFlags.AcceptsExactly | agent/borg_ui_agent/borg_flags.py:146-223 | the same for the flags as handed in, absent, text or list; a set of flags has one reading |
| BorgFlagRules.MajorDecidesExactly | agent/borg_ui_agent/borg_flags.py:159-166 | flags that spell settings of the command are accepted if and only if the major has every option: with major 2 none that only Borg 1 has, with another given major none that only Borg 2 has, without one any |
| BorgFlagRules.BundleReadsAsItsSwitches | agent/borg_ui_agent/borg_flags.py:136-143 | at the front of any words a bundle of switches reads as its switches one by one |
| BorgFlagRules.BundleExpandsExactly | agent/borg_ui_agent/borg_flags.py:136-143 | which words are bundles: a dash and two letters or more, all of them options without a value; every other word stands for itself |
| BorgFlagRules.KnownOptionIsRefusedFor | agent/borg_ui_agent/borg_flags.py:196-222 | why a known option is refused, or how it is read, by its own kind and by what follows it |
| BorgFlagRules.OtherWordIsRefusedFor | agent/borg_ui_agent/borg_flags.py:184-203 | why any other word is refused |
| BorgFlags.ParsingItsOutputChangesNothing | agent/borg_ui_agent/borg_flags.py:146-160 | the output parsed again, with the same command and major, reads as the same settings and so comes back unchanged |
| BorgFlags.OutputIsHarmless | agent/borg_ui_agent/borg_flags.py:153-160 | no accepted flags leave a positional word, a control character, an unknown option or one of the other major in the output |
| BorgFlagRules.OutputNamesItsOptions | agent/borg_ui_agent/borg_flags.py:184-222 | no word of the output holds a control character, and every one with a dash names an option that the command and the major have, told on the tables themselves |
| BorgFlagRules.NormalForm | agent/borg_ui_agent/borg_flags.py:218-222 | a long option comes back in one word with its value, a short one in two |
| BorgFlags.RenderStaysExpanded | agent/borg_ui_agent/borg_flags.py:136-143 | the output holds no bundle of short flags |
| BorgOptions.TablesAreWellFormed | agent/borg_ui_agent/borg_flags.py:18-129 | every name of the real tables has the form all of this is proved for |
| Utf8.TruncatesToLongestPrefix | agent/borg_ui_agent/scripts.py:60-66 | the text kept is the longest character prefix that fits the bytes (section 3 of RFC 3629), the text itself exactly when it fits, and at most three bytes short otherwise |
| Utf8.DecodesWhatWasEncoded | agent/borg_ui_agent/scripts.py:63-66 | decoding what was encoded gives the text back, surrogates read as `?` |
| Utf8.DecodeOfPrefix | agent/borg_ui_agent/scripts.py:66 | decoding the first bytes gives the characters that fit whole and drops the one cut short |
| Utf8.FittingIsLongest | agent/borg_ui_agent/scripts.py:60-66 | the count of fitting characters is the largest |
| BoundedCapture.Capture.BoundedAppend | agent/borg_ui_agent/scripts.py:218-230 | one appended line, with the counter equal to the bytes counted and the capture properties kept |
| BoundedCapture.AppendKeepsCapture | agent/borg_ui_agent/scripts.py:218-230 | after any lines: the counter is at most one over, all lines are kept exactly when all fit, otherwise at most two bytes of the counter are left, and the kept ones are beginnings of the first lines |
| BoundedCapture.CapturedText | agent/borg_ui_agent/scripts.py:218-230 | the joined text is within the budget, equals the joined lines when all fit, and is at most three bytes short of the budget otherwise |
| BoundedCapture.JoinedBytes | agent/borg_ui_agent/scripts.py:218-230 | the counter counts one newline more than the joined text holds |
| BoundedCapture.JoinFromFront | agent/borg_ui_agent/scripts.py:218-230 | the text is the first line, a newline, and the text of the rest |
| BoundedCapture.EmptyLastLineIsLost | agent/borg_ui_agent/scripts.py:218-225 | an empty line that begins exactly at the end of the budget is lost although the joined text with it is no longer than the budget |
| BoundedCapture.LaterLineIsTakenAfterCut | agent/borg_ui_agent/scripts.py:222-230 | after a line was cut in front of a character of four bytes, a later line of two bytes is taken whole |

## Left out

- WebSocket, HTTP, SQLAlchemy, threads and subprocesses themselves: sends are messages under way, a transaction is atomic from its guarded write to its commit, a lock hold is one step.
- Several agent processes at once, agent restarts (which lose kept outcomes by design), old agents with incomplete hellos or without attempt numbers, and the polling path.
- Hellos handled out of the order of their sessions.
- The dispatcher putting a job back after a failed send (app/services/agent_job_dispatcher.py), which is guarded by nothing but the status `claimed`.
- Handlers that raise after they have reported an outcome, so that a second report replaces the kept one.
- Cancel races of kinds outside the self-cancelling set, where the check and the keep are not atomic for any order.
- The figures of a progress report, statistics, phases, error and log texts of operations; a linked row is its status, times and percentage.
- What the runner does with a deferred lock failure, and whether a failure is one: the decision is a parameter.
- The reaper's scheduling and the skipping of queued jobs of offline agents; of the reaper only its write to an in-flight job is modelled.
- A cancel of a queued backup closes the operation itself (app/services/repository_executor.py); only the job's side of abandoning is modelled.
- Splitting a stored flag text the way a shell does: a text is the words it splits into, or the failure to split.
- The reader without padding, which passes every chunk on as it comes.
- The page cut of the activity list, the union of its sources, and the list without collapsing, which shows every visible item.
- `children.py`, installer scripts, argv building, regular expressions, JSON parsing, UI and configuration.
- LateLines.LateLinesRefineCollect: late lines are handled one at a time, and the file holds the text of the rows when the first one arrives.
- Outcomes.SettledWithinTwoWindows: assumes that every report is answered; a server that is away is waited for without a limit.
- JobRaces.LinkedRowAgreement: assumes the operation is open while its job is unfinished; JobRaces.AgreementDespiteClosing covers verdicts by other code.
- Outcomes.DeliverPendingOutcomes: what other threads do to the store is a parameter, tied to the workers of AgentModel by nothing.
- JobLogs.LogsAcrossRequeues: lines over the session are one step, since their handler does not yield between its read and its commit; lines are split at newlines only, not at every separator of Python's `splitlines`.
