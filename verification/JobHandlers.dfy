/**
 * The report handlers and the requeue loop of app/api/agents.py on mutable rows: each method
 * assigns the fields of a job row and of the linked operation one by one, and is proved to commit
 * what JobRows says that transaction commits. `copy` is the job as the handler loaded it.
 */
module JobHandlers {
  import opened Wrappers
  import opened JobRows
  import opened JobLogs

  class OperationRecord {
    var status: OpStatus
    var startedAt: Option<int>
    var completedAt: Option<int>
    var progress: int

    constructor (status: OpStatus)
      ensures Row() == OpRow(status, None, None, 0)
    {
      this.status, startedAt, completedAt, progress := status, None, None, 0;
    }

    ghost function Row(): OpRow
      reads this
    {
      OpRow(status, startedAt, completedAt, progress)
    }
  }

  const UNLINKED := OpRow(OpQueued, None, None, 0)

  class JobRecord {
    const payload: Payload
    const operation: OperationRecord?
    var status: Status
    var claimedAt: Option<int>
    var startedAt: Option<int>
    var startNotifiedAt: Option<int>
    var updatedAt: int
    var completedAt: Option<int>
    var result: JobResult
    var error: JobError
    var logs: seq<LogRow>

    constructor (payload: Payload, operation: OperationRecord?, now: int)
      requires payload.link == NoLink <==> operation == null
      ensures Valid() && this.payload == payload && this.operation == operation && logs == []
      ensures Job() == JobRow(payload, Queued, None, None, None, now, None, NoResult, NoError)
    {
      this.payload, this.operation := payload, operation;
      status, claimedAt, startedAt, startNotifiedAt, completedAt := Queued, None, None, None, None;
      updatedAt, result, error, logs := now, NoResult, NoError, [];
    }

    ghost predicate Valid() {
      payload.link == NoLink <==> operation == null
    }

    function Job(): JobRow
      reads this
    {
      JobRow(payload, status, claimedAt, startedAt, startNotifiedAt, updatedAt, completedAt, result, error)
    }

    ghost function Stored(): Rows
      reads this, operation
    {
      Rows(Job(), if operation == null then UNLINKED else operation.Row())
    }

    // ---- Guarded writes

    /** `_claim_terminal_transition`; None leaves a column alone. */
    method ClaimTerminalTransition(newStatus: Status, completed: int, newResult: Option<JobResult>,
            newError: Option<JobError>, now: int)
      returns (claimed: bool)
      requires Final(newStatus)
      modifies this
      ensures claimed == !old(Final(status)) && logs == old(logs)
      ensures Job() == if !claimed then old(Job())
                       else old(Job()).(status := newStatus, completedAt := Some(completed), updatedAt := now,
                                        result := if newResult.Some? then newResult.value else old(result),
                                        error := if newError.Some? then newError.value else old(error))
    {
      if status in {Completed, CompletedWithWarnings, Failed, Canceled} {
        return false;
      }
      status, completedAt, updatedAt := newStatus, Some(completed), now;
      if newResult.Some? {
        result := newResult.value;
      }
      if newError.Some? {
        error := newError.value;
      }
      return true;
    }

    method FinishLinkedRows(verdict: Status, completed: int)
      requires Valid() && Final(verdict)
      modifies operation
      ensures Stored() == Rows(old(Job()), FinishLinked(old(Job()), old(Stored()).op, verdict, completed))
    {
      if operation == null {
        return;
      }
      operation.status := OpVerdict(verdict);
      if payload.link == MaintenanceLink && operation.startedAt.None? {
        operation.startedAt := Some(OrElse(startedAt, completed));
      }
      operation.completedAt := Some(completed);
      if verdict == Completed || verdict == CompletedWithWarnings {
        operation.progress := 100;
      }
    }

    // ---- Terminal reports

    method CompleteAgentJob(copy: JobRow, code: ReturnCode, deferred: bool, reported: Option<int>, now: int)
            returns (moved: bool)
      requires Valid()
      modifies this, operation
      ensures logs == old(logs)
      ensures Stored() == CompleteJob(copy, code, deferred, reported, now, old(Stored())).rows
      ensures moved == CompleteJob(copy, code, deferred, reported, now, old(Stored())).won
    {
      if Final(copy.status) {
        return false;
      }
      if code.Malformed? {
        moved := RecordFailure(copy, NoCode, deferred, MalformedCode, reported, now);
        return;
      }
      var borgExitCode := !payload.script;
      var warning := borgExitCode && IsBorgWarning(code);
      if borgExitCode && code.Code? && code.value != 0 && !warning {
        moved := RecordFailure(copy, code, deferred, BorgExited(code.value), reported, now);
        return;
      }
      var completed := OrElse(reported, now);
      var verdict := if warning then CompletedWithWarnings else Completed;
      moved := ClaimTerminalTransition(verdict, completed, Some(Report(code)),
          Some(if warning then WarningExit(code.value) else NoError), now);
      if moved {
        FinishLinkedRows(verdict, completed);
      }
    }

    method RecordFailure(copy: JobRow, code: ReturnCode, deferred: bool, message: JobError, reported: Option<int>,
            now: int) returns (moved: bool)
      requires Valid()
      modifies this, operation
      ensures logs == old(logs)
      ensures Stored() == SettleReport(copy, Verdict(Failed, FailureReport(code, deferred), message), reported, now,
              old(Stored())).rows
      ensures moved == SettleReport(copy, Verdict(Failed, FailureReport(code, deferred), message), reported, now,
              old(Stored())).won
    {
      if Final(copy.status) {
        return false;
      }
      var completed := OrElse(reported, now);
      moved := ClaimTerminalTransition(Failed, completed, Some(FailureReport(code, deferred)), Some(message), now);
      if !moved || deferred {
        return;
      }
      FinishLinkedRows(Failed, completed);
    }

    method FailAgentJob(copy: JobRow, code: ReturnCode, deferred: bool, message: string, reported: Option<int>,
            now: int) returns (moved: bool)
      requires Valid()
      modifies this, operation
      ensures logs == old(logs)
      ensures Stored() == FailJob(copy, code, deferred, message, reported, now, old(Stored())).rows
      ensures moved == FailJob(copy, code, deferred, message, reported, now, old(Stored())).won
    {
      moved := RecordFailure(copy, code, deferred, Told(message), reported, now);
    }

    method CancelAgentJob(copy: JobRow, reported: Option<int>, now: int)
      requires Valid()
      modifies this, operation
      ensures logs == old(logs)
      ensures Stored() == CancelJob(copy, reported, now, old(Stored())).rows
    {
      if Final(copy.status) {
        return;
      }
      var completed := OrElse(reported, now);
      var claimed := ClaimTerminalTransition(Canceled, completed, None, None, now);
      if claimed {
        FinishLinkedRows(Canceled, completed);
      }
    }

    // ---- Start and progress reports

    method SyncMaintenanceProgress(seenStart: Option<int>, now: int)
      requires Valid() && payload.link == MaintenanceLink
      modifies operation
      ensures Stored() == Rows(old(Job()), SyncMaintenance(old(Stored()).op, seenStart, now))
    {
      if Terminal(operation.status) {
        return;
      }
      if operation.startedAt.None? {
        operation.startedAt := Some(OrElse(seenStart, now));
      }
      operation.status := OpRunning;
    }

    /** The linked row of a job that started; True when the backup-start notification is due. */
    method MarkLinkedRowStarted(firstStart: bool, seenStart: int, now: int) returns (notify: bool)
      requires Valid()
      modifies operation
      ensures notify == (firstStart && payload.link == BackupLink)
      ensures Stored() == Rows(old(Job()), StartLinked(payload, firstStart, seenStart, now, old(Stored()).op))
    {
      notify := false;
      if payload.link == BackupLink {
        if firstStart {
          operation.startedAt := Some(seenStart);
          notify := true;
        }
        operation.status := OpRunning;
      } else if payload.link == MaintenanceLink {
        SyncMaintenanceProgress(Some(seenStart), now);
      }
    }

    /** True when the backup-start notification is due. */
    method MarkAgentJobStarted(copy: JobRow, reported: Option<int>, now: int) returns (notify: bool)
      requires Valid()
      modifies this, operation
      ensures logs == old(logs)
      ensures Stored() == MarkStarted(copy, reported, now, old(Stored())).rows
      ensures notify == MarkStarted(copy, reported, now, old(Stored())).notify
    {
      if Final(copy.status) || Final(status) {
        return false;
      }
      if status != CancelRequested {
        status := Running;
      }
      if copy.claimedAt.None? {
        claimedAt := Some(now);
      }
      var started := OrElse(reported, now);
      var seenStart := OrElse(copy.startedAt, started);
      if copy.startedAt.None? {
        startedAt := Some(started);
      }
      var firstStart := startNotifiedAt.None?;
      if firstStart {
        startNotifiedAt := Some(started);
      }
      updatedAt := now;
      notify := MarkLinkedRowStarted(firstStart, seenStart, now);
    }

    method ApplyAgentJobProgress(copy: JobRow, now: int)
      requires Valid()
      modifies this, operation
      ensures logs == old(logs)
      ensures Stored() == ApplyProgress(copy, now, old(Stored())).rows
    {
      if Final(copy.status) || Final(status) {
        return;
      }
      if payload.link == BackupLink {
        if !Terminal(operation.status) {
          operation.status := OpRunning;
        }
      } else if payload.link == MaintenanceLink {
        SyncMaintenanceProgress(copy.startedAt, now);
      }
      updatedAt := now;
    }

    // ---- Requeue of one job

    /** `_kept_prune_lines`: one pass over the rows in sequence order. */
    method KeptPruneLines(w: Wording) returns (kept: seq<LogRow>)
      ensures kept == if payload.prune then KeptLines(InOrder(logs), w) else []
    {
      kept := [];
      if !payload.prune {
        return;
      }
      var rows := InOrder(logs);
      for i := 0 to |rows|
        invariant kept + KeptLines(rows[i..], w) == KeptLines(rows, w)
      {
        var lines := Naming(SplitLines(rows[i].message), w);
        assert rows[i..][1..] == rows[i + 1..];
        if lines != [] {
          kept := kept + [rows[i].(message := JoinLines(lines))];
        }
      }
      assert rows[|rows|..] == [];
    }

    method ResetRequeuedLog(w: Wording, now: int)
      modifies this`logs
      ensures logs == ResetLog(payload.prune, old(logs), w, now)
    {
      var kept := KeptPruneLines(w);
      if logs == [] {
        return;
      }
      logs := [];
      for offset := 0 to |kept|
        invariant logs == Renumbered(kept)[..offset]
      {
        logs := logs + [kept[offset].(sequence := REQUEUED_JOB_LOG_SEQUENCE - |kept| + offset)];
      }
      logs := logs + [Note(w, now)];
    }

    /** `_cancel_if_requested_meanwhile`. */
    method CancelIfRequestedMeanwhile(p: Presence)
      requires Valid()
      modifies this, operation
      ensures logs == old(logs)
      ensures Stored() == CancelMeanwhile(p, old(Stored())).rows
    {
      if status != CancelRequested {
        return;
      }
      if !p.atHello && updatedAt > p.now - STALE_AGENT_JOB_REQUEUE_AFTER {
        return;
      }
      CancelAgentJob(Job(), Some(p.now), p.now);
    }

    /** The loop body of the requeue. */
    method Requeue(w: Wording, copy: JobRow, p: Presence)
      requires Valid()
      modifies this, operation
      ensures Stored() == RequeueJob(copy, p, old(Stored())).rows
      ensures logs == LogAfterRequeue(w, copy, p, old(Job()), old(logs))
    {
      if !InFlight(copy.status) || p.listed {
        return;
      }
      var undelivered := copy.status == Claimed && copy.startedAt.None?;
      var skipAgeCheck := p.atHello && (p.complete || undelivered || copy.status == CancelRequested);
      if !skipAgeCheck && copy.updatedAt > p.now - STALE_AGENT_JOB_REQUEUE_AFTER {
        return;
      }
      if copy.status == CancelRequested {
        CancelAgentJob(copy, Some(p.now), p.now);
        return;
      }
      if status != copy.status {
        CancelIfRequestedMeanwhile(p);
        return;
      }
      if copy.payload.requestScoped {
        status, completedAt, updatedAt, error := Failed, Some(p.now), p.now, SessionLost;
        return;
      }
      status, claimedAt, startedAt, updatedAt := Queued, None, None, p.now;
      ResetRequeuedLog(w, p.now);
      if payload.link == BackupLink && !TerminalBackup(operation.status) {
        operation.status := OpQueued;
      }
    }
  }

  /** The stored lines are reset exactly when the job really went back on the queue. */
  function LogAfterRequeue(w: Wording, copy: JobRow, p: Presence, row: JobRow, logs: seq<LogRow>): seq<LogRow> {
    if Decide(copy, p) == Decision.PutBack && row.status == copy.status
        then ResetLog(row.payload.prune, logs, w, p.now) else logs
  }

  /** The jobs of one agent. */
  class JobTable {
    var jobs: map<int, JobRecord>

    ghost predicate Valid()
      reads this
    {
      && (forall id :: id in jobs ==> jobs[id].Valid())
      && (forall a, b :: a in jobs && b in jobs && a != b ==>
           jobs[a] != jobs[b] && (jobs[a].operation == null || jobs[a].operation != jobs[b].operation))
    }

    ghost function Records(): set<object>
      reads this
    {
      (set id | id in jobs :: jobs[id] as object)
          + (set id | id in jobs && jobs[id].operation != null :: jobs[id].operation as object)
    }

    /** What the requeue made of one job it loaded. */
    twostate predicate Requeued(w: Wording, job: JobRecord, copy: JobRow, p: Presence)
      reads job, job.operation
    {
      && job.Stored() == RequeueJob(copy, p, old(job.Stored())).rows
      && job.logs == LogAfterRequeue(w, copy, p, old(job.Job()), old(job.logs))
    }

    twostate predicate LeftAlone(job: JobRecord)
      reads job, job.operation
    {
      job.Stored() == old(job.Stored()) && job.logs == old(job.logs)
    }

    /**
     * `_requeue_stale_agent_jobs`: `copies` are the jobs the query returned, `running` the ids the
     * agent listed. Every job loaded is treated on its own, and no other job is touched.
     */
    method RequeueStaleAgentJobs(w: Wording, copies: seq<(int, JobRow)>, running: seq<int>, atHello: bool,
            complete: bool, now: int)
      requires Valid()
      requires forall i :: 0 <= i < |copies| ==> copies[i].0 in jobs
      requires forall i, j :: 0 <= i < j < |copies| ==> copies[i].0 != copies[j].0
      modifies Records()
      ensures jobs == old(jobs)
      ensures forall i :: 0 <= i < |copies| ==>
                Requeued(w, jobs[copies[i].0], copies[i].1, Presence(copies[i].0 in running, atHello, complete, now))
      ensures forall id :: id in jobs && (forall i :: 0 <= i < |copies| ==> copies[i].0 != id) ==> LeftAlone(jobs[id])
    {
      for n := 0 to |copies|
        invariant jobs == old(jobs)
        invariant forall i :: 0 <= i < n ==>
                    Requeued(w, jobs[copies[i].0], copies[i].1,
                        Presence(copies[i].0 in running, atHello, complete, now))
        invariant forall id :: id in jobs && (forall i :: 0 <= i < n ==> copies[i].0 != id) ==> LeftAlone(jobs[id])
      {
        var (id, copy) := copies[n];
        assert LeftAlone(jobs[id]);
        jobs[id].Requeue(w, copy, Presence(id in running, atHello, complete, now));
      }
    }
  }
}
