/**
 * What every report and every requeue comes to, told by the statuses, times and links of the rows
 * and, for what is decided once, over every later run of transactions.
 */
module JobOutcomes {
  import opened Wrappers
  import opened JobRows
  import opened JobRaces

  predicate Unfinished(s: Status) {
    s in {Queued, Claimed, Running, CancelRequested}
  }

  /** The operation has no verdict yet. */
  predicate Open(s: OpStatus) {
    s in {OpQueued, OpRunning}
  }

  lemma {:induction false} UnfinishedOrFinal(s: Status)
    ensures Unfinished(s) <==> !Final(s)
  {
    assert s.Queued? || s.Claimed? || s.Running? || s.CancelRequested? || s in {Completed, CompletedWithWarnings}
        || s in {Failed, Canceled};
  }

  lemma {:induction false} OpenOrTerminal(s: OpStatus)
    ensures Open(s) <==> !Terminal(s)
    ensures s in {OpQueued, OpRunning, OpSkipped} <==> !TerminalBackup(s)
  {
  }

  /** The time a report carries, or that of its arrival. */
  function SaidAt(reported: Option<int>, now: int): int {
    match reported
    case Some(at) => at
    case None => now
  }

  // ---- Terminal reports

  /** The operation got a verdict: its end, its full progress if it completed, and, for one of
      maintenance that nobody saw start, a start. */
  predicate ClosedAs(before: OpRow, after: OpRow, job: JobRow, verdict: OpStatus, at: int) {
    && after.status == verdict && after.completedAt == Some(at)
    && (verdict in {OpCompleted, OpCompletedWithWarnings} ==> after.progress == 100)
    && (verdict in {OpFailed, OpCancelled} ==> after.progress == before.progress)
    && (before.startedAt.Some? || job.payload.link == BackupLink ==> after.startedAt == before.startedAt)
    && (before.startedAt.None? && job.payload.link == MaintenanceLink ==>
          after.startedAt == Some(SaidAt(job.startedAt, at)))
  }

  /** The linked operation, if there is one, got the verdict. */
  predicate LinkClosedAs(before: Rows, after: Rows, verdict: OpStatus, at: int) {
    if before.job.payload.link == NoLink then after.op == before.op
    else ClosedAs(before.op, after.op, before.job, verdict, at)
  }

  /** A report finished the job at the time it said; what was known of the job before is kept, the
      write counts once and the report is told that it won. */
  predicate FinishedBy(before: World, after: World, at: int) {
    var was, now := before.rows.job, after.rows.job;
    && now.completedAt == Some(at) && now.payload == was.payload
    && now.claimedAt == was.claimedAt && now.startedAt == was.startedAt && now.startNotifiedAt == was.startNotifiedAt
    && after.settled == before.settled + 1 && after.wins == before.wins + 1 && after.notices == before.notices
  }

  /** Borg fails with any code but 0, 1 and 100 to 127; a script's code is its caller's business; a
      code that is no number fails either. */
  predicate ExitFails(script: bool, code: ReturnCode) {
    code.Malformed? || (!script && code.Code? && code.value != 0 && code.value != 1 && !(100 <= code.value < 128))
  }

  predicate ExitWarns(script: bool, code: ReturnCode) {
    !script && code.Code? && (code.value == 1 || 100 <= code.value < 128)
  }

  lemma {:induction false} ReportIsLast(w: World, t: Txn, ts: seq<Txn>)
    requires IsTerminalReport(t) && Unfinished(CopyOf(t).value.status) && Unfinished(w.rows.job.status)
    ensures var v, u := Play(w, [t] + ts), After(w, t);
            && v.rows == u.rows.(job := u.rows.job.(updatedAt := v.rows.job.updatedAt))
            && v.settled == u.settled && v.wins == u.wins && v.notices == u.notices
  {
    UnfinishedOrFinal(CopyOf(t).value.status);
    UnfinishedOrFinal(w.rows.job.status);
    assert ([t] + ts)[1..] == ts;
    VerdictStands(After(w, t), ts);
  }

  /** The first completion report decides for good, by the exit code, whether a script ran and
      whether the failure is deferred: job and operation are the same after every later run of
      transactions. */
  lemma {:induction false} CompletionReportStands(w: World, t: Txn, ts: seq<Txn>)
    requires t.Complete? && Unfinished(t.copy.status) && Unfinished(w.rows.job.status)
    ensures var v, script, at := Play(w, [t] + ts), w.rows.job.payload.script, SaidAt(t.reported, t.now);
            && FinishedBy(w, v, at)
            && (ExitFails(script, t.code) ==>
                  && v.rows.job.status == Failed
                  && v.rows.job.error == (if t.code.Malformed? then MalformedCode else BorgExited(t.code.value))
                  && v.rows.job.result == FailureReport(if t.code.Malformed? then NoCode else t.code, t.deferred)
                  && if t.deferred then v.rows.op == w.rows.op else LinkClosedAs(w.rows, v.rows, OpFailed, at))
            && (ExitWarns(script, t.code) ==>
                  && v.rows.job.status == CompletedWithWarnings && v.rows.job.error == WarningExit(t.code.value)
                  && v.rows.job.result == Report(t.code)
                  && LinkClosedAs(w.rows, v.rows, OpCompletedWithWarnings, at))
            && (!ExitFails(script, t.code) && !ExitWarns(script, t.code) ==>
                  && v.rows.job.status == Completed && v.rows.job.error == NoError
                  && v.rows.job.result == Report(t.code)
                  && LinkClosedAs(w.rows, v.rows, OpCompleted, at))
  {
    UnfinishedOrFinal(t.copy.status);
    UnfinishedOrFinal(w.rows.job.status);
    ReportIsLast(w, t, ts);
  }

  /** The first failure report fails the job for good, and its operation unless the runner is to try
      again. */
  lemma {:induction false} FailureReportStands(w: World, t: Txn, ts: seq<Txn>)
    requires t.Fail? && Unfinished(t.copy.status) && Unfinished(w.rows.job.status)
    ensures var v, at := Play(w, [t] + ts), SaidAt(t.reported, t.now);
            && FinishedBy(w, v, at)
            && v.rows.job.status == Failed && v.rows.job.error == Told(t.message)
            && v.rows.job.result == FailureReport(t.code, t.deferred)
            && if t.deferred then v.rows.op == w.rows.op else LinkClosedAs(w.rows, v.rows, OpFailed, at)
  {
    UnfinishedOrFinal(t.copy.status);
    UnfinishedOrFinal(w.rows.job.status);
    ReportIsLast(w, t, ts);
  }

  /** The first canceled report cancels job and operation for good, and leaves the rest alone. */
  lemma {:induction false} CancelReportStands(w: World, t: Txn, ts: seq<Txn>)
    requires t.Cancel? && Unfinished(t.copy.status) && Unfinished(w.rows.job.status)
    ensures var v, at := Play(w, [t] + ts), SaidAt(t.reported, t.now);
            && FinishedBy(w, v, at)
            && v.rows.job.status == Canceled
            && v.rows.job.error == w.rows.job.error && v.rows.job.result == w.rows.job.result
            && LinkClosedAs(w.rows, v.rows, OpCancelled, at)
  {
    UnfinishedOrFinal(t.copy.status);
    UnfinishedOrFinal(w.rows.job.status);
    ReportIsLast(w, t, ts);
  }

  /** A terminal report on a finished job, or from a handler that had loaded one, writes nothing. */
  lemma {:induction false} LateReportWritesNothing(w: World, t: Txn)
    requires IsTerminalReport(t) && !(Unfinished(CopyOf(t).value.status) && Unfinished(w.rows.job.status))
    ensures After(w, t) == w
  {
    UnfinishedOrFinal(CopyOf(t).value.status);
    UnfinishedOrFinal(w.rows.job.status);
  }

  // ---- Start and progress reports

  /** Neither the job the handler had loaded nor the row was finished. */
  predicate Lands(copy: JobRow, r: Rows) {
    Unfinished(copy.status) && Unfinished(r.job.status)
  }

  /** A maintenance operation was seen running. */
  predicate SeenRunning(before: OpRow, after: OpRow, at: int) {
    if !Open(before.status) then after == before
    else after == before.(status := OpRunning,
                          startedAt := if before.startedAt.Some? then before.startedAt else Some(at))
  }

  /** A landing start report: the job runs, unless it is to be cancelled; what the handler had seen
      missing is filled in; and the operation runs, with its verdict respected for maintenance. */
  lemma {:induction false} StartReportLands(t: Txn, r: Rows)
    requires t.Start? && Lands(t.copy, r)
    ensures var after, said := Apply(t, r).rows, SaidAt(t.reported, t.now);
            var seen := SaidAt(t.copy.startedAt, said);
            && after.job.status == (if r.job.status == CancelRequested then CancelRequested else Running)
            && after.job.updatedAt == t.now
            && after.job.claimedAt == (if t.copy.claimedAt.Some? then r.job.claimedAt else Some(t.now))
            && after.job.startedAt == (if t.copy.startedAt.Some? then r.job.startedAt else Some(said))
            && after.job.startNotifiedAt == Some(SaidAt(r.job.startNotifiedAt, said))
            && after.job.completedAt == r.job.completedAt && after.job.result == r.job.result
            && after.job.error == r.job.error
            && (r.job.payload.link == NoLink ==> after.op == r.op)
            && (r.job.payload.link == BackupLink ==> after.op == r.op.(status := OpRunning,
                   startedAt := if r.job.startNotifiedAt.None? then Some(seen) else r.op.startedAt))
            && (r.job.payload.link == MaintenanceLink ==> SeenRunning(r.op, after.op, seen))
  {
    UnfinishedOrFinal(t.copy.status);
    UnfinishedOrFinal(r.job.status);
    OpenOrTerminal(r.op.status);
  }

  /** A landing progress report is a sign of life of the job, and opens no operation with a verdict. */
  lemma {:induction false} ProgressReportLands(t: Txn, r: Rows)
    requires t.Progress? && Lands(t.copy, r)
    ensures var after := Apply(t, r).rows;
            && after.job == r.job.(updatedAt := t.now)
            && (r.job.payload.link == NoLink ==> after.op == r.op)
            && (r.job.payload.link == BackupLink ==>
                  after.op == if Open(r.op.status) then r.op.(status := OpRunning) else r.op)
            && (r.job.payload.link == MaintenanceLink ==>
                  SeenRunning(r.op, after.op, SaidAt(t.copy.startedAt, t.now)))
  {
    UnfinishedOrFinal(t.copy.status);
    UnfinishedOrFinal(r.job.status);
    OpenOrTerminal(r.op.status);
  }

  lemma {:induction false} LateStartWritesNothing(t: Txn, r: Rows)
    requires (t.Start? || t.Progress?) && !Lands(CopyOf(t).value, r)
    ensures Apply(t, r) == Unwritten(r)
  {
    UnfinishedOrFinal(CopyOf(t).value.status);
    UnfinishedOrFinal(r.job.status);
  }

  lemma {:induction false} StartTimesStandStep(t: Txn, r: Rows)
    requires r.job.startNotifiedAt.Some?
    ensures var after := Apply(t, r).rows;
            && after.job.startNotifiedAt == r.job.startNotifiedAt && after.job.payload == r.job.payload
            && (r.op.startedAt.Some? ==> after.op.startedAt == r.op.startedAt)
  {
  }

  lemma {:induction false} StartTimesStand(w: World, ts: seq<Txn>)
    requires w.rows.job.startNotifiedAt.Some?
    ensures Play(w, ts).rows.job.startNotifiedAt == w.rows.job.startNotifiedAt
    ensures w.rows.op.startedAt.Some? ==> Play(w, ts).rows.op.startedAt == w.rows.op.startedAt
    decreases |ts|
  {
    if ts != [] {
      StartTimesStandStep(ts[0], w.rows);
      StartTimesStand(After(w, ts[0]), ts[1..]);
    }
  }

  /** The first start report that lands fixes when the work began, through every requeue and every
      further start: the job's marker, a backup's start, and that of a maintenance operation which
      had none and no verdict. */
  lemma {:induction false} FirstStartStands(w: World, t: Txn, ts: seq<Txn>)
    requires t.Start? && Lands(t.copy, w.rows) && w.rows.job.startNotifiedAt.None?
    ensures var v, said, link := Play(w, [t] + ts), SaidAt(t.reported, t.now), w.rows.job.payload.link;
            var seen := SaidAt(t.copy.startedAt, said);
            && v.rows.job.startNotifiedAt == Some(said)
            && (link == BackupLink ==> v.rows.op.startedAt == Some(seen))
            && (link == MaintenanceLink && Open(w.rows.op.status) ==>
                  v.rows.op.startedAt == Some(SaidAt(w.rows.op.startedAt, seen)))
  {
    assert ([t] + ts)[1..] == ts;
    StartReportLands(t, w.rows);
    StartTimesStand(After(w, t), ts);
  }

  // ---- The requeue

  /** Two minutes without a sign of life. */
  predicate Silent(job: JobRow, now: int) {
    job.updatedAt <= now - 120_000_000
  }

  /** The list gives the job up: it is in flight and missing, and silent, or the list is a hello's
      that says everything, or the job a cancelled one, or one never seen to start. */
  predicate Due(copy: JobRow, p: Presence) {
    && copy.status in {Claimed, Running, CancelRequested} && !p.listed
    && (Silent(copy, p.now)
        || (p.atHello && (p.complete || copy.status == CancelRequested
                          || (copy.status == Claimed && copy.startedAt.None?))))
  }

  predicate CanceledAt(before: Rows, after: Rows, now: int) {
    && after.job == before.job.(status := Canceled, completedAt := Some(now), updatedAt := now)
    && LinkClosedAs(before, after, OpCancelled, now)
  }

  /** The job is queued as if it had not been claimed, and a backup waits with it unless it has a
      verdict; one that was skipped counts as waiting. */
  predicate QueuedAgain(before: Rows, after: Rows, now: int) {
    && after.job == before.job.(status := Queued, claimedAt := None, startedAt := None, updatedAt := now)
    && after.op == if before.job.payload.link == BackupLink && before.op.status in {OpQueued, OpRunning, OpSkipped}
                   then before.op.(status := OpQueued) else before.op
  }

  predicate LostWithSession(before: Rows, after: Rows, now: int) {
    && after.job == before.job.(status := Failed, completedAt := Some(now), updatedAt := now, error := SessionLost)
    && after.op == before.op
  }

  /** A cancel that the list's handler loaded and the row still has is settled with its operation at
      a hello, or after two minutes without a sign of life; otherwise nothing changes. */
  lemma {:induction false} LoadedCancelIsSettledExactly(copy: JobRow, p: Presence, r: Rows)
    requires copy.payload == r.job.payload && copy.status == r.job.status == CancelRequested && !p.listed
    ensures var after := RequeueJob(copy, p, r).rows;
            && (after.job.status == Canceled <==> p.atHello || Silent(copy, p.now))
            && (after.job.status == Canceled ==> CanceledAt(r, after, p.now))
            && (after.job.status == Canceled && r.job.payload.link != NoLink ==> after.op.status == OpCancelled)
            && (after.job.status != Canceled ==> after == r)
  {
    UnfinishedOrFinal(r.job.status);
  }

  /** What becomes of a job that a list's handler loaded, whatever the row is by the time it writes. */
  lemma {:induction false} RequeueOutcomeExactly(copy: JobRow, p: Presence, r: Rows)
    requires copy.payload == r.job.payload
    ensures var after := RequeueJob(copy, p, r).rows;
            if !Due(copy, p) || !Unfinished(r.job.status) then after == r
            else if copy.status == CancelRequested then CanceledAt(r, after, p.now)
            else if r.job.status == copy.status then
              if r.job.payload.requestScoped then LostWithSession(r, after, p.now) else QueuedAgain(r, after, p.now)
            else if r.job.status == CancelRequested && (p.atHello || Silent(r.job, p.now)) then
              CanceledAt(r, after, p.now)
            else after == r
  {
    UnfinishedOrFinal(r.job.status);
    OpenOrTerminal(r.op.status);
  }

  /** A report of the requeue as one transaction: nobody is told, nobody notified. */
  lemma {:induction false} RequeueIsQuiet(t: Txn, r: Rows)
    requires t.Requeue?
    ensures Apply(t, r).rows == RequeueJob(t.copy, t.presence.(now := t.now), r).rows && !Apply(t, r).notify
  {
  }

  // ---- The other writers

  /** A job is claimed out of the queue and from nowhere else. */
  lemma {:induction false} ClaimLands(t: Txn, r: Rows)
    requires t.Claim? || t.Ack?
    ensures Apply(t, r).rows == if r.job.status != Queued then r
            else r.(job := r.job.(status := Claimed, claimedAt := Some(t.now), updatedAt := t.now))
  {
  }

  /** A cancel is requested of any unfinished job; its operation is closed by others. */
  lemma {:induction false} CancelRequestLands(t: Txn, r: Rows)
    requires t.AskCancel?
    ensures Apply(t, r).rows == if !Unfinished(r.job.status) then r
            else r.(job := r.job.(status := CancelRequested, updatedAt := t.now))
  {
    UnfinishedOrFinal(r.job.status);
  }

  /** A job whose caller gave up is taken off the queue, and from nowhere else. */
  lemma {:induction false} AbandonLands(t: Txn, r: Rows)
    requires t.Abandon?
    ensures Apply(t, r).rows == if r.job.status != Queued then r
            else r.(job := r.job.(status := Canceled, completedAt := Some(t.now), updatedAt := t.now,
                                  error := Abandoned))
  {
  }

  /** The reaper fails a job in flight that it had loaded silent for fifteen minutes, and the backup
      that rides on it. */
  lemma {:induction false} ReapsExactly(t: Txn, r: Rows)
    requires t.Reap?
    ensures var after := Apply(t, r).rows;
            if t.copy.updatedAt <= t.now - 900_000_000 && r.job.status in {Claimed, Running, CancelRequested} then
              && after.job == r.job.(status := Failed, completedAt := Some(t.now), updatedAt := t.now, error := Reaped)
              && after.op == if r.job.payload.link == BackupLink && r.op.status in {OpQueued, OpRunning, OpSkipped}
                             then r.op.(status := OpFailed, completedAt := Some(t.now)) else r.op
            else after == r
  {
    OpenOrTerminal(r.op.status);
  }

  /** A stored line, or a heartbeat that lists the job, is a sign of life and nothing else. */
  lemma {:induction false} TouchLands(t: Txn, r: Rows)
    requires t.Touch?
    ensures Apply(t, r).rows == r.(job := r.job.(updatedAt := t.now))
  {
  }

  /** Whatever a transaction writes, it stamps the row with its time: what decides whether the job
      counts as silent. */
  lemma {:induction false} WritesStampTheRow(t: Txn, r: Rows)
    ensures Apply(t, r).rows != r ==> Apply(t, r).rows.job.updatedAt == t.now
    ensures IsTerminalReport(t) && Lands(CopyOf(t).value, r) ==> Apply(t, r).rows.job.updatedAt == t.now
  {
    UnfinishedOrFinal(r.job.status);
  }

  // ---- The times over every run

  /** The job has an end exactly if it is finished, its operation exactly if it has a verdict, and
      full progress exactly if it completed. */
  predicate TimesTell(r: Rows) {
    && (r.job.completedAt.Some? <==> !Unfinished(r.job.status))
    && (r.op.completedAt.Some? <==> !Open(r.op.status))
    && (r.op.progress == 100 <==> r.op.status in {OpCompleted, OpCompletedWithWarnings})
  }

  lemma {:induction false} StepKeepsTimes(w: World, t: Txn)
    requires Laws(w) && Fits(t, w.rows) && TimesTell(w.rows)
    ensures TimesTell(After(w, t).rows)
  {
    OpenOrTerminal(w.rows.op.status);
    UnfinishedOrFinal(w.rows.job.status);
    UnfinishedOrFinal(After(w, t).rows.job.status);
    if Final(w.rows.job.status) {
      FinalIsFrozen(t, w.rows);
    }
  }

  lemma {:induction false} TimesTellTheStory(w: World, ts: seq<Txn>)
    requires Laws(w) && AllFit(ts, w.rows) && TimesTell(w.rows)
    ensures TimesTell(Play(w, ts).rows)
    decreases |ts|
  {
    if ts != [] {
      assert Fits(ts[0], w.rows);
      StepKeepsTimes(w, ts[0]);
      StepKeepsLaws(w, ts[0]);
      forall i | 0 <= i < |ts[1..]| ensures Fits(ts[1..][i], After(w, ts[0]).rows) {
        assert ts[1..][i] == ts[i + 1];
      }
      TimesTellTheStory(After(w, ts[0]), ts[1..]);
    }
  }
}
