/**
 * What any number of racing handlers can do to one job and its linked operation. A run is a
 * sequence of transactions; each may have decided on a copy that is older than the row, so every
 * law below holds for every interleaving of reads and guarded writes.
 */
module JobRaces {
  import opened Wrappers
  import opened JobRows

  /** The rows, how often a write moved the job to a final state, how often a report was told it
      did, and how many start notifications went out. */
  datatype World = World(rows: Rows, settled: nat, wins: nat, notices: nat)

  /** The copy of a transaction is some state of the same job: its payload never changes. */
  predicate Fits(t: Txn, r: Rows) {
    CopyOf(t).Some? ==> CopyOf(t).value.payload == r.job.payload
  }

  function After(w: World, t: Txn): World {
    var written := Apply(t, w.rows);
    World(written.rows,
          w.settled + (if !Final(w.rows.job.status) && Final(written.rows.job.status) then 1 else 0),
          w.wins + (if written.won then 1 else 0),
          w.notices + (if written.notify then 1 else 0))
  }

  function Play(w: World, ts: seq<Txn>): World
    decreases |ts|
  {
    if ts == [] then w else Play(After(w, ts[0]), ts[1..])
  }

  predicate AllFit(ts: seq<Txn>, r: Rows) {
    forall i :: 0 <= i < |ts| ==> Fits(ts[i], r)
  }

  /** A job as its creator commits it, next to an operation that has no verdict yet. */
  predicate Fresh(w: World) {
    && w.rows.job.status == Queued
    && w.rows.job.startNotifiedAt.None?
    && w.rows.job.result == NoResult
    && w.rows.job.error == NoError
    && !Terminal(w.rows.op.status)
    && w.settled == w.wins == w.notices == 0
  }

  /** The final jobs whose operation somebody else closes: a lock failure the runner tries again,
      a request-scoped job lost with its session, a job abandoned in the queue, and a reaped
      maintenance job. */
  predicate LeftOpen(job: JobRow) {
    || (job.result.FailureReport? && job.result.deferred)
    || (job.error == SessionLost && job.payload.requestScoped)
    || job.error == Abandoned
    || (job.error == Reaped && job.payload.link == MaintenanceLink)
  }

  /** The job and its operation tell the same story. */
  predicate Agree(r: Rows) {
    if !Final(r.job.status) then !Terminal(r.op.status) && r.job.result == NoResult && r.job.error == NoError
    else if r.job.payload.link == NoLink then true
    else if LeftOpen(r.job) then !Terminal(r.op.status)
    else r.op.status == OpVerdict(r.job.status)
  }

  predicate Laws(w: World) {
    && Agree(w.rows)
    && w.settled == (if Final(w.rows.job.status) then 1 else 0)
    && w.wins <= w.settled
    && w.notices == (if w.rows.job.payload.link == BackupLink && w.rows.job.startNotifiedAt.Some? then 1 else 0)
  }

  predicate IsTerminalReport(t: Txn) {
    t.Complete? || t.Fail? || t.Cancel?
  }

  lemma {:induction false} ReportKeepsLaws(w: World, t: Txn)
    requires Laws(w) && Fits(t, w.rows) && (t.Start? || t.Progress? || IsTerminalReport(t))
    ensures Laws(After(w, t))
    ensures After(w, t).rows.job.payload == w.rows.job.payload
  {
  }

  lemma {:induction false} RequeueKeepsLaws(w: World, t: Txn)
    requires Laws(w) && Fits(t, w.rows) && t.Requeue?
    ensures Laws(After(w, t))
    ensures After(w, t).rows.job.payload == w.rows.job.payload
  {
    if Decide(t.copy, t.presence.(now := t.now)) == FailScoped {
      assert t.copy.payload.requestScoped;
    }
  }

  lemma {:induction false} StepKeepsLaws(w: World, t: Txn)
    requires Laws(w) && Fits(t, w.rows)
    ensures Laws(After(w, t))
    ensures After(w, t).rows.job.payload == w.rows.job.payload
  {
    if t.Start? || t.Progress? || IsTerminalReport(t) {
      ReportKeepsLaws(w, t);
    } else if t.Requeue? {
      RequeueKeepsLaws(w, t);
    }
  }

  /** Over every run: job and operation agree, exactly one write settles the job, at most one
      report is told that it did, and the start is announced once if a start ever landed. */
  lemma {:induction false} EveryRunKeepsLaws(w: World, ts: seq<Txn>)
    requires Laws(w) && AllFit(ts, w.rows)
    ensures Laws(Play(w, ts))
    decreases |ts|
  {
    if ts != [] {
      assert Fits(ts[0], w.rows);
      StepKeepsLaws(w, ts[0]);
      forall i | 0 <= i < |ts[1..]| ensures Fits(ts[1..][i], After(w, ts[0]).rows) {
        assert ts[1..][i] == ts[i + 1];
      }
      EveryRunKeepsLaws(After(w, ts[0]), ts[1..]);
    }
  }

  lemma {:induction false} LinkedRowAgreement(w: World, ts: seq<Txn>)
    requires Fresh(w) && AllFit(ts, w.rows)
    ensures Laws(Play(w, ts))
  {
    EveryRunKeepsLaws(w, ts);
  }

  /** A start report landed in the run: neither the job it had loaded nor the row was final. */
  predicate StartLanded(w: World, ts: seq<Txn>)
    decreases |ts|
  {
    ts != [] && ((ts[0].Start? && !Final(ts[0].copy.status) && !Final(w.rows.job.status))
        || StartLanded(After(w, ts[0]), ts[1..]))
  }

  lemma {:induction false} MarkerMeansLanded(w: World, ts: seq<Txn>)
    ensures Play(w, ts).rows.job.startNotifiedAt.Some? <==> w.rows.job.startNotifiedAt.Some? || StartLanded(w, ts)
    ensures Play(w, ts).rows.job.payload == w.rows.job.payload
    decreases |ts|
  {
    if ts != [] {
      MarkerMeansLanded(After(w, ts[0]), ts[1..]);
    }
  }

  /** Over all requeues and both transports the start of a backup is announced at most once, and it
      is announced exactly if a start report landed. */
  lemma {:induction false} StartIsAnnouncedOnce(w: World, ts: seq<Txn>)
    requires Fresh(w) && AllFit(ts, w.rows)
    ensures Play(w, ts).notices == if w.rows.job.payload.link == BackupLink && StartLanded(w, ts) then 1 else 0
  {
    EveryRunKeepsLaws(w, ts);
    MarkerMeansLanded(w, ts);
  }

  // ---- Verdicts

  /** Final states are absorbing, and so is everything recorded with them: whatever copy a late
      transaction decided on, it can only move the time of the last sign of life. */
  lemma {:induction false} FinalIsFrozen(t: Txn, r: Rows)
    requires Final(r.job.status)
    ensures var w := Apply(t, r); !w.won && !w.notify && w.rows == r.(job := r.job.(updatedAt := w.rows.job.updatedAt))
  {
  }

  lemma {:induction false} VerdictStands(w: World, ts: seq<Txn>)
    requires Final(w.rows.job.status)
    ensures var v := Play(w, ts);
            && v.rows == w.rows.(job := w.rows.job.(updatedAt := v.rows.job.updatedAt))
            && v.settled == w.settled && v.wins == w.wins && v.notices == w.notices
    decreases |ts|
  {
    if ts != [] {
      FinalIsFrozen(ts[0], w.rows);
      VerdictStands(After(w, ts[0]), ts[1..]);
    }
  }

  /** The transactions that settle a job without anybody reporting on it. */
  predicate SettlesUnasked(t: Txn) {
    t.Requeue? || t.Reap? || t.Abandon?
  }

  lemma {:induction false} WinnerIsTold(w: World, t: Txn)
    requires !SettlesUnasked(t)
    ensures After(w, t).wins - w.wins == After(w, t).settled - w.settled
  {
  }

  lemma {:induction false} WinnersAreTold(w: World, ts: seq<Txn>)
    requires forall i :: 0 <= i < |ts| ==> !SettlesUnasked(ts[i])
    ensures Play(w, ts).wins - w.wins == Play(w, ts).settled - w.settled
    decreases |ts|
  {
    if ts != [] {
      WinnerIsTold(w, ts[0]);
      WinnersAreTold(After(w, ts[0]), ts[1..]);
    }
  }

  /** Of any number of racing terminal reports exactly one wins: once a report that read the job
      as unfinished has run, the job is final, exactly one write settled it, and at most one report
      was told that it did; exactly one, when nothing but reports could settle it. */
  lemma {:induction false} OneWinner(w: World, ts: seq<Txn>, k: nat)
    requires Fresh(w) && AllFit(ts, w.rows)
    requires k < |ts| && IsTerminalReport(ts[k]) && !Final(CopyOf(ts[k]).value.status)
    ensures Final(Play(w, ts).rows.job.status)
    ensures Play(w, ts).settled == 1 && Play(w, ts).wins <= 1
    ensures (forall i :: 0 <= i < |ts| ==> !SettlesUnasked(ts[i])) ==> Play(w, ts).wins == 1
  {
    EveryRunKeepsLaws(w, ts);
    ReportSettles(w, ts, k);
    if forall i :: 0 <= i < |ts| ==> !SettlesUnasked(ts[i]) {
      WinnersAreTold(w, ts);
    }
  }

  lemma {:induction false} ReportSettles(w: World, ts: seq<Txn>, k: nat)
    requires k < |ts| && IsTerminalReport(ts[k]) && !Final(CopyOf(ts[k]).value.status)
    ensures Final(Play(w, ts).rows.job.status)
    decreases |ts|
  {
    var next := After(w, ts[0]);
    if k == 0 {
      assert Final(next.rows.job.status);
      VerdictStands(next, ts[1..]);
    } else {
      ReportSettles(next, ts[1..], k - 1);
    }
  }

  /** A cancel request is never undone by a single transaction ... */
  lemma {:induction false} CancelSurvivesStep(t: Txn, r: Rows)
    requires r.job.status == CancelRequested
    ensures var s := Apply(t, r).rows.job.status; s == CancelRequested || Final(s)
  {
  }

  /** ... nor by any run of them: it stays until the job is final. */
  lemma {:induction false} CancelNeverUndone(w: World, ts: seq<Txn>)
    requires w.rows.job.status == CancelRequested
    ensures var s := Play(w, ts).rows.job.status; s == CancelRequested || Final(s)
    decreases |ts|
  {
    if ts != [] {
      CancelSurvivesStep(ts[0], w.rows);
      if After(w, ts[0]).rows.job.status == CancelRequested {
        CancelNeverUndone(After(w, ts[0]), ts[1..]);
      } else {
        VerdictStands(After(w, ts[0]), ts[1..]);
      }
    }
  }

  /** A cancel that commits between the requeue's read and its write wins: the row is not queued
      again. At a hello it is settled on the spot, with its operation; on a heartbeat it waits
      out the window. */
  lemma {:induction false} CancelBeatsRequeue(copy: JobRow, p: Presence, r: Rows)
    requires copy.payload == r.job.payload && copy.status != CancelRequested
    requires r.job.status == CancelRequested && Decide(copy, p) != Skip
    ensures var out := RequeueJob(copy, p, r).rows;
            if p.atHello || !Recent(r.job, p.now)
            then out.job.status == Canceled && (r.job.payload.link != NoLink ==> out.op.status == OpCancelled)
            else out == r
  {
  }

  /** Only a requeue puts a job back on the queue, and only one whose row still has the status it
      was read with. */
  lemma {:induction false} OnlyRequeueQueues(t: Txn, r: Rows)
    requires r.job.status != Queued
    requires Apply(t, r).rows.job.status == Queued
    ensures t.Requeue? && Decide(t.copy, t.presence.(now := t.now)) == PutBack
    ensures t.copy.status == r.job.status && r.job.status in {Claimed, Running}
  {
  }

  /** A queued job becomes running by one kind of transaction: a start report whose handler did not
      load a final job. It need not have loaded the job before the requeue. */
  lemma {:induction false} QueuedRunsExactly(t: Txn, r: Rows)
    requires r.job.status == Queued
    ensures Apply(t, r).rows.job.status == Running <==> t.Start? && !Final(t.copy.status)
  {
  }

  /** Whether the job that was moved to running has a claim: it has none exactly if the handler had
      seen one, on a copy from before the requeue that cleared it. */
  lemma {:induction false} RevivedHasNoClaimExactly(t: Txn, r: Rows)
    requires r.job.status == Queued && t.Start? && !Final(t.copy.status)
    ensures Apply(t, r).rows.job.claimedAt.None? <==> r.job.claimedAt.None? && t.copy.claimedAt.Some?
  {
  }

  /** A landing start report changes the claim, which names the attempt, exactly if its handler had
      loaded the job without one; so it can write over the claim of a dispatch that came after. */
  lemma {:induction false} StartReclaimsExactly(t: Txn, r: Rows)
    requires t.Start? && !Final(t.copy.status) && !Final(r.job.status)
    ensures Apply(t, r).rows.job.claimedAt != r.job.claimedAt
            <==> t.copy.claimedAt.None? && r.job.claimedAt != Some(t.now)
  {
  }

  /** Both ways to get there: loaded before the requeue, and loaded after it. */
  lemma {:induction false} LateStartRevivesQueuedJob(r: Rows, claimed: JobRow, now: int)
    requires r.job.status == Queued && r.job.claimedAt.None? && claimed.status == Claimed && claimed.claimedAt.Some?
    ensures var early, late := MarkStarted(claimed, None, now, r).rows.job, MarkStarted(r.job, None, now, r).rows.job;
            && early.status == Running && early.claimedAt.None?
            && late.status == Running && late.claimedAt.Some?
            && !Undelivered(early) && !Undelivered(late)
  {
    QueuedRunsExactly(Start(claimed, None, now), r);
    RevivedHasNoClaimExactly(Start(claimed, None, now), r);
    RevivedHasNoClaimExactly(Start(r.job, None, now), r);
  }

  // ---- The operation closed by somebody else

  /** The two transactions that write an operation's status without looking for a verdict: a start
      report of a backup, and a requeue of a backup that was skipped. */
  predicate Reopens(t: Txn, r: Rows) {
    && r.job.payload.link == BackupLink
    && ((t.Start? && !Final(t.copy.status) && !Final(r.job.status))
        || (t.Requeue? && Decide(t.copy, t.presence.(now := t.now)) == PutBack
            && r.job.status == t.copy.status && r.op.status == OpSkipped))
  }

  lemma {:induction false} ReopensExactly(t: Txn, r: Rows)
    requires Terminal(r.op.status)
    ensures !Terminal(Apply(t, r).rows.op.status) <==> Reopens(t, r)
  {
  }

  /** A transaction of a handler, or the operation given a verdict by other code. */
  datatype Happening = Handled(txn: Txn) | Closed(verdict: OpStatus)

  function Happen(r: Rows, h: Happening): Rows {
    match h
    case Handled(t) => Apply(t, r).rows
    case Closed(verdict) => r.(op := r.op.(status := verdict))
  }

  function HappenAll(r: Rows, hs: seq<Happening>): Rows
    decreases |hs|
  {
    if hs == [] then r else HappenAll(Happen(r, hs[0]), hs[1..])
  }

  predicate Verdicts(hs: seq<Happening>) {
    forall i :: 0 <= i < |hs| && hs[i].Closed? ==> Terminal(hs[i].verdict)
  }

  /** Some step of the run reopens the operation while it is terminal. */
  predicate EverReopened(r: Rows, hs: seq<Happening>)
    decreases |hs|
  {
    hs != [] && ((Terminal(r.op.status) && hs[0].Handled? && Reopens(hs[0].txn, r))
        || EverReopened(Happen(r, hs[0]), hs[1..]))
  }

  /** The operation is terminal in every state of the run. */
  predicate AlwaysTerminal(r: Rows, hs: seq<Happening>)
    decreases |hs|
  {
    Terminal(r.op.status) && (hs == [] || AlwaysTerminal(Happen(r, hs[0]), hs[1..]))
  }

  /** Once somebody has closed the operation, with its job finished or not, it stays closed through
      a run of transactions and further verdicts exactly if no start report of a backup lands and no
      requeue puts a skipped backup back. Progress and maintenance reports never reopen it. */
  lemma {:induction false} ClosedOperationStays(r: Rows, hs: seq<Happening>)
    requires Terminal(r.op.status) && Verdicts(hs)
    ensures AlwaysTerminal(r, hs) <==> !EverReopened(r, hs)
    decreases |hs|
  {
    if hs != [] {
      if hs[0].Handled? {
        ReopensExactly(hs[0].txn, r);
      }
      if Terminal(Happen(r, hs[0]).op.status) {
        ClosedOperationStays(Happen(r, hs[0]), hs[1..]);
      }
    }
  }

  /** Verdicts by other code that reach the operation before the job is final, and transactions
      that fit the job. */
  predicate ClosedBeforeFinal(r: Rows, hs: seq<Happening>)
    decreases |hs|
  {
    hs == [] || ((if hs[0].Handled? then Fits(hs[0].txn, r) else !Final(r.job.status))
                 && ClosedBeforeFinal(Happen(r, hs[0]), hs[1..]))
  }

  /** A final job and its operation agree, unless somebody else was to close the operation. */
  predicate AgreeWhenFinal(r: Rows) {
    if !Final(r.job.status) then r.job.result == NoResult && r.job.error == NoError
    else
      || r.job.payload.link == NoLink
      || LeftOpen(r.job)
      || r.job.error == Reaped
      || r.op.status == OpVerdict(r.job.status)
  }

  lemma {:induction false} TransactionKeepsAgreement(r: Rows, t: Txn)
    requires AgreeWhenFinal(r) && Fits(t, r)
    ensures AgreeWhenFinal(Apply(t, r).rows)
  {
    if Final(r.job.status) {
      FinalIsFrozen(t, r);
    }
  }

  /** Whatever verdict other code gave the operation while the job was unfinished, the report that
      finishes the job puts its own in its place, and nothing later moves it. */
  lemma {:induction false} AgreementDespiteClosing(r: Rows, hs: seq<Happening>)
    requires AgreeWhenFinal(r) && ClosedBeforeFinal(r, hs)
    ensures AgreeWhenFinal(HappenAll(r, hs))
    decreases |hs|
  {
    if hs != [] {
      if hs[0].Handled? {
        TransactionKeepsAgreement(r, hs[0].txn);
      }
      AgreementDespiteClosing(Happen(r, hs[0]), hs[1..]);
    }
  }
}
