/**
 * The server's row of one agent job, the row of the operation linked to it, and the effect of
 * every transaction that writes them (app/api/agents.py).
 *
 * A handler loads the job, decides on that copy, and then writes behind a WHERE guard that the
 * database evaluates on the row. The two may have drifted apart, so every transaction takes the
 * copy it decided on (`copy`) next to the rows as they are when its guarded write runs (`r`).
 * From that write to the commit the row is locked: the rest of a handler is one step.
 */
module JobRows {
  import opened Wrappers

  datatype Status =
    | Queued | Claimed | Running | CancelRequested
    | Completed | CompletedWithWarnings | Failed | Canceled

  predicate Final(s: Status) {
    s in {Completed, CompletedWithWarnings, Failed, Canceled}
  }

  /** The states a requeue looks at. */
  predicate InFlight(s: Status) {
    s in {Claimed, Running, CancelRequested}
  }

  datatype OpStatus =
    | OpQueued | OpRunning
    | OpCompleted | OpCompletedWithWarnings | OpFailed | OpCancelled | OpSkipped

  predicate Terminal(s: OpStatus) {
    s != OpQueued && s != OpRunning
  }

  /** The narrower list the requeue uses before it reopens a backup. */
  predicate TerminalBackup(s: OpStatus) {
    Terminal(s) && s != OpSkipped
  }

  datatype Link = NoLink | BackupLink | MaintenanceLink

  /** What the handlers read from a job's type and payload; never written. */
  datatype Payload = Payload(script: bool, requestScoped: bool, prune: bool, link: Link)

  datatype ReturnCode = NoCode | Code(value: int) | Malformed

  datatype JobError =
    | NoError | WarningExit(code: int) | BorgExited(code: int) | MalformedCode
    | Told(message: string) | SessionLost | Reaped | Abandoned

  datatype JobResult =
    | NoResult
    | Report(code: ReturnCode)
    | FailureReport(code: ReturnCode, deferred: bool)

  datatype JobRow = JobRow(
    payload: Payload,
    status: Status,
    claimedAt: Option<int>,
    startedAt: Option<int>,
    startNotifiedAt: Option<int>,
    updatedAt: int,
    completedAt: Option<int>,
    result: JobResult,
    error: JobError)

  datatype OpRow = OpRow(status: OpStatus, startedAt: Option<int>, completedAt: Option<int>, progress: int)

  datatype Rows = Rows(job: JobRow, op: OpRow)

  /** The committed rows, whether the report moved the job to a final state (what the report
      handlers return), and whether the start notification goes out. */
  datatype Written = Written(rows: Rows, won: bool, notify: bool)

  function Unwritten(r: Rows): Written {
    Written(r, false, false)
  }

  // Times are microseconds: an attempt is named by its claim time in this unit.
  const STALE_AGENT_JOB_REQUEUE_AFTER := 2 * 60 * 1_000_000
  const AGENT_JOB_REAP_AFTER := 15 * 60 * 1_000_000

  function OrElse(o: Option<int>, default: int): int {
    if o.Some? then o.value else default
  }

  // ---- Start and progress reports

  function SyncMaintenance(op: OpRow, startedAt: Option<int>, now: int): OpRow {
    if Terminal(op.status) then op
    else op.(status := OpRunning,
             startedAt := if op.startedAt.None? then Some(OrElse(startedAt, now)) else op.startedAt)
  }

  /** The linked row of a job that started. */
  function StartLinked(p: Payload, first: bool, seenStart: int, now: int, op: OpRow): OpRow {
    match p.link
    case BackupLink => op.(status := OpRunning, startedAt := if first then Some(seenStart) else op.startedAt)
    case MaintenanceLink => SyncMaintenance(op, Some(seenStart), now)
    case NoLink => op
  }

  /** `_mark_agent_job_started`. The claim and start times are written when the copy had none,
      whatever the row holds by then; the notification marker is claimed on the row. */
  function MarkStarted(copy: JobRow, reported: Option<int>, now: int, r: Rows): Written {
    if Final(copy.status) || Final(r.job.status) then Unwritten(r)
    else
      var started := OrElse(reported, now);
      var seenStart := OrElse(copy.startedAt, started);
      var first := r.job.startNotifiedAt.None?;
      var job := r.job.(
        status := if r.job.status == CancelRequested then CancelRequested else Running,
        claimedAt := if copy.claimedAt.None? then Some(now) else r.job.claimedAt,
        startedAt := if copy.startedAt.None? then Some(started) else r.job.startedAt,
        startNotifiedAt := if first then Some(started) else r.job.startNotifiedAt,
        updatedAt := now);
      Written(Rows(job, StartLinked(r.job.payload, first, seenStart, now, r.op)), false, first
          && r.job.payload.link == BackupLink)
  }

  /** `_apply_agent_job_progress` and POST /progress, without the figures themselves. */
  function ApplyProgress(copy: JobRow, now: int, r: Rows): Written {
    if Final(copy.status) || Final(r.job.status) then Unwritten(r)
    else
      var job := r.job.(updatedAt := now);
      match r.job.payload.link
      case BackupLink =>
        Written(Rows(job, if Terminal(r.op.status) then r.op else r.op.(status := OpRunning)), false, false)
      case MaintenanceLink =>
        Written(Rows(job, SyncMaintenance(r.op, copy.startedAt, now)), false, false)
      case NoLink =>
        Written(Rows(job, r.op), false, false)
  }

  // ---- Terminal reports

  datatype Verdict = Verdict(status: Status, result: JobResult, error: JobError)

  predicate IsBorgWarning(code: ReturnCode) {
    code.Code? && (code.value == 1 || 100 <= code.value <= 127)
  }

  /** How the server classifies a completion report; `deferred` is what the runner would decide
      should it turn out to be a failure on a foreign lock. */
  function CompletionVerdict(p: Payload, code: ReturnCode, deferred: bool): Verdict {
    if code.Malformed? then
      Verdict(Failed, FailureReport(NoCode, deferred), MalformedCode)
    else if !p.script && code.Code? && code.value != 0 && !IsBorgWarning(code) then
      Verdict(Failed, FailureReport(code, deferred), BorgExited(code.value))
    else if !p.script && IsBorgWarning(code) then
      Verdict(CompletedWithWarnings, Report(code), WarningExit(code.value))
    else
      Verdict(Completed, Report(code), NoError)
  }

  function OpVerdict(s: Status): OpStatus
    requires Final(s)
  {
    match s
    case Completed => OpCompleted
    case CompletedWithWarnings => OpCompletedWithWarnings
    case Failed => OpFailed
    case Canceled => OpCancelled
  }

  /** `_finish_linked_backup_job` and `_finish_linked_repository_operation_job`. */
  function FinishLinked(job: JobRow, op: OpRow, s: Status, completed: int): OpRow
    requires Final(s)
  {
    var progress := if s == Completed || s == CompletedWithWarnings then 100 else op.progress;
    match job.payload.link
    case NoLink => op
    case BackupLink => op.(status := OpVerdict(s), completedAt := Some(completed), progress := progress)
    case MaintenanceLink =>
      op.(status := OpVerdict(s), completedAt := Some(completed), progress := progress,
          startedAt := if op.startedAt.None? then Some(OrElse(job.startedAt, completed)) else op.startedAt)
  }

  /** The guarded terminal write and, in the same transaction, the linked row. A lock failure the
      runner defers leaves that row open. */
  function SettleReport(copy: JobRow, v: Verdict, reported: Option<int>, now: int, r: Rows): Written
    requires Final(v.status)
  {
    if Final(copy.status) || Final(r.job.status) then Unwritten(r)
    else
      var completed := OrElse(reported, now);
      var job := r.job.(status := v.status, completedAt := Some(completed), result := v.result,
                        error := v.error, updatedAt := now);
      var op := if v.result.FailureReport? && v.result.deferred then r.op
                else FinishLinked(job, r.op, v.status, completed);
      Written(Rows(job, op), true, false)
  }

  /** `_complete_agent_job`. */
  function CompleteJob(copy: JobRow, code: ReturnCode, deferred: bool, reported: Option<int>, now: int,
          r: Rows): Written {
    SettleReport(copy, CompletionVerdict(r.job.payload, code, deferred), reported, now, r)
  }

  /** `_fail_agent_job`. */
  function FailJob(copy: JobRow, code: ReturnCode, deferred: bool, message: string,
                   reported: Option<int>, now: int, r: Rows): Written {
    SettleReport(copy, Verdict(Failed, FailureReport(code, deferred), Told(message)), reported, now, r)
  }

  /** `_cancel_agent_job`: the result and the error of the row stay. */
  function CancelJob(copy: JobRow, reported: Option<int>, now: int, r: Rows): Written {
    if Final(copy.status) || Final(r.job.status) then Unwritten(r)
    else
      var completed := OrElse(reported, now);
      var job := r.job.(status := Canceled, completedAt := Some(completed), updatedAt := now);
      Written(Rows(job, FinishLinked(job, r.op, Canceled, completed)), true, false)
  }

  // ---- Requeue

  /** What a hello or a heartbeat says about one job: whether it lists the job, and how far the
      list can be trusted. */
  datatype Presence = Presence(listed: bool, atHello: bool, complete: bool, now: int)

  datatype Decision = Skip | SettleCancel | FailScoped | PutBack

  predicate Undelivered(job: JobRow) {
    job.status == Claimed && job.startedAt.None?
  }

  predicate Recent(job: JobRow, now: int) {
    job.updatedAt > now - STALE_AGENT_JOB_REQUEUE_AFTER
  }

  /** The loop body of `_requeue_stale_agent_jobs` up to its write, on the job as read. */
  function Decide(copy: JobRow, p: Presence): Decision {
    if !InFlight(copy.status) || p.listed then Skip
    else if !(p.atHello && (p.complete || Undelivered(copy) || copy.status == CancelRequested)) && Recent(copy, p.now)
        then Skip
    else if copy.status == CancelRequested then SettleCancel
    else if copy.payload.requestScoped then FailScoped
    else PutBack
  }

  /** `_cancel_if_requested_meanwhile`, after a guard that missed. */
  function CancelMeanwhile(p: Presence, r: Rows): Written {
    if r.job.status != CancelRequested || (!p.atHello && Recent(r.job, p.now)) then Unwritten(r)
    else CancelJob(r.job, Some(p.now), p.now, r)
  }

  function RequeueJob(copy: JobRow, p: Presence, r: Rows): Written {
    match Decide(copy, p)
    case Skip => Unwritten(r)
    case SettleCancel => CancelJob(copy, Some(p.now), p.now, r)
    case FailScoped =>
      if r.job.status != copy.status then CancelMeanwhile(p, r)
      else Written(r.(job := r.job.(status := Failed, completedAt := Some(p.now), updatedAt := p.now,
          error := SessionLost)), false, false)
    case PutBack =>
      if r.job.status != copy.status then CancelMeanwhile(p, r)
      else
        var job := r.job.(status := Queued, claimedAt := None, startedAt := None, updatedAt := p.now);
        var op := if r.job.payload.link == BackupLink && !TerminalBackup(r.op.status) then r.op.(status := OpQueued)
            else r.op;
        Written(Rows(job, op), false, false)
  }

  // ---- The other writers of the row

  /** The dispatcher and POST /claim: conditional on `queued`. */
  function ClaimJob(now: int, r: Rows): Written {
    if r.job.status != Queued then Unwritten(r)
    else Written(r.(job := r.job.(status := Claimed, claimedAt := Some(now), updatedAt := now)), false, false)
  }

  /** A cancel request: any job that is not final becomes `cancel_requested`. */
  function RequestCancel(now: int, r: Rows): Written {
    if Final(r.job.status) then Unwritten(r)
    else Written(r.(job := r.job.(status := CancelRequested, updatedAt := now)), false, false)
  }

  /** A caller that stopped waiting takes a job nobody claimed off the queue. */
  function AbandonQueued(now: int, r: Rows): Written {
    if r.job.status != Queued then Unwritten(r)
    else Written(r.(job := r.job.(status := Canceled, completedAt := Some(now), updatedAt := now,
        error := Abandoned)), false, false)
  }

  /** The reaper: an in-flight job silent for fifteen minutes, and a backup that rides on it. */
  function ReapJob(copy: JobRow, now: int, r: Rows): Written {
    if copy.updatedAt > now - AGENT_JOB_REAP_AFTER || !InFlight(r.job.status) then Unwritten(r)
    else
      var job := r.job.(status := Failed, completedAt := Some(now), updatedAt := now, error := Reaped);
      var op := if r.job.payload.link == BackupLink && !TerminalBackup(r.op.status)
                then r.op.(status := OpFailed, completedAt := Some(now)) else r.op;
      Written(Rows(job, op), false, false)
  }

  /** One transaction of one handler. */
  datatype Txn =
    | Ack(now: int)
    | Start(copy: JobRow, reported: Option<int>, now: int)
    | Progress(copy: JobRow, now: int)
    | Complete(copy: JobRow, code: ReturnCode, deferred: bool, reported: Option<int>, now: int)
    | Fail(copy: JobRow, code: ReturnCode, deferred: bool, message: string, reported: Option<int>, now: int)
    | Cancel(copy: JobRow, reported: Option<int>, now: int)
    | Requeue(copy: JobRow, presence: Presence, now: int)
    | Reap(copy: JobRow, now: int)
    | Claim(now: int)
    | AskCancel(now: int)
    | Abandon(now: int)
    | Touch(now: int)  // a stored log line, or a heartbeat that lists the job

  /** The copy a transaction decides on, if it loads one before it writes. */
  function CopyOf(t: Txn): Option<JobRow> {
    match t
    case Start(copy, _, _) => Some(copy)
    case Progress(copy, _) => Some(copy)
    case Complete(copy, _, _, _, _) => Some(copy)
    case Fail(copy, _, _, _, _, _) => Some(copy)
    case Cancel(copy, _, _) => Some(copy)
    case Requeue(copy, _, _) => Some(copy)
    case Reap(copy, _) => Some(copy)
    case _ => None
  }

  function Apply(t: Txn, r: Rows): Written {
    match t
    case Ack(now) => ClaimJob(now, r)
    case Start(copy, reported, now) => MarkStarted(copy, reported, now, r)
    case Progress(copy, now) => ApplyProgress(copy, now, r)
    case Complete(copy, code, deferred, reported, now) => CompleteJob(copy, code, deferred, reported, now, r)
    case Fail(copy, code, deferred, message, reported, now) => FailJob(copy, code, deferred, message, reported, now, r)
    case Cancel(copy, reported, now) => CancelJob(copy, reported, now, r)
    case Requeue(copy, presence, now) => RequeueJob(copy, presence.(now := now), r)
    case Reap(copy, now) => ReapJob(copy, now, r)
    case Claim(now) => ClaimJob(now, r)
    case AskCancel(now) => RequestCancel(now, r)
    case Abandon(now) => AbandonQueued(now, r)
    case Touch(now) => Written(r.(job := r.job.(updatedAt := now)), false, false)
  }
}
