/**
 * The claim time names the attempt that a log line must belong to. Which transactions of the job
 * row write it, and what the log theorems say of every interleaving of those transactions with the
 * arrival of lines.
 */
module JobClaims {
  import opened Wrappers
  import opened JobRows
  import Logs = JobLogs

  /** What a transaction means for the log: a dispatch or a poll claims a queued job, an
      acknowledgement or a start report writes a claim that names no dispatch, a requeue puts the
      job back. */
  function ClaimEvent(t: Txn, r: Rows): Option<Logs.Event> {
    match t
    case Claim(now) => if r.job.status == Queued then Some(Logs.Dispatched(now)) else None
    case Ack(now) => if r.job.status == Queued then Some(Logs.ReportClaims(now)) else None
    case Start(copy, _, now) =>
      if copy.claimedAt.None? && !Final(copy.status) && !Final(r.job.status) then Some(Logs.ReportClaims(now)) else None
    case Requeue(copy, presence, now) =>
      if Decide(copy, presence.(now := now)) == PutBack && r.job.status == copy.status then Some(Logs.PutBack(now))
      else None
    case _ => None
  }

  /** The claim that the event leaves. */
  function ClaimAfter(event: Option<Logs.Event>, claim: Option<int>): Option<int>
    requires event.Some? ==> event.value.Dispatched? || event.value.ReportClaims? || event.value.PutBack?
  {
    match event
    case Some(Dispatched(at)) => Some(at)
    case Some(ReportClaims(at)) => Some(at)
    case Some(PutBack(_)) => None
    case None => claim
  }

  /** No other transaction touches the claim, whatever copy it decided on, and none but the last kind
      takes the job back to the queue. */
  lemma {:induction false} ClaimChangesExactly(t: Txn, r: Rows)
    ensures Apply(t, r).rows.job.claimedAt == ClaimAfter(ClaimEvent(t, r), r.job.claimedAt)
    ensures r.job.status != Queued ==>
              (Apply(t, r).rows.job.status == Queued <==> ClaimEvent(t, r).Some? && ClaimEvent(t, r).value.PutBack?)
    ensures ClaimEvent(t, r).Some? && ClaimEvent(t, r).value.Dispatched? ==>
              r.job.status == Queued && Apply(t, r).rows.job.status == Claimed
  {
  }

  // ---- Rows and log together

  /** A transaction of a handler, or a line that arrives or is uploaded. */
  datatype Move = Wrote(txn: Txn) | Line(event: Logs.Event)

  datatype Both = Both(rows: Rows, log: Logs.System)

  /** The log's claim is the row's, and a job on the queue has no run the server waits for. */
  predicate Linked(b: Both) {
    b.log.store.claim == b.rows.job.claimedAt && (b.log.ledger.live ==> b.rows.job.status != Queued)
  }

  /** A claim is later than every dispatch before it. */
  predicate Possible(b: Both, m: Move) {
    match m
    case Wrote(t) =>
      var event := ClaimEvent(t, b.rows);
      event.Some? && !event.value.PutBack? ==> Logs.Later(b.log.ledger, event.value.at)
    case Line(event) => (event.Arrived? || event.UploadRead? || event.UploadCommit?) && Logs.Possible(b.log, event)
  }

  function EventOf(b: Both, m: Move): Option<Logs.Event> {
    match m
    case Wrote(t) => ClaimEvent(t, b.rows)
    case Line(event) => Some(event)
  }

  function Step(prune: bool, w: Logs.Wording, b: Both, m: Move): (after: Both)
    requires Linked(b) && Possible(b, m)
    ensures Linked(after)
  {
    var rows := if m.Wrote? then Apply(m.txn, b.rows).rows else b.rows;
    Both(rows, if EventOf(b, m).Some? then Logs.Step(prune, w, b.log, EventOf(b, m).value) else b.log)
  }

  predicate PossibleRun(prune: bool, w: Logs.Wording, b: Both, ms: seq<Move>)
    requires Linked(b)
    decreases |ms|
  {
    ms == [] || (Possible(b, ms[0]) && PossibleRun(prune, w, Step(prune, w, b, ms[0]), ms[1..]))
  }

  function Play(prune: bool, w: Logs.Wording, b: Both, ms: seq<Move>): Both
    requires Linked(b) && PossibleRun(prune, w, b, ms)
    decreases |ms|
  {
    if ms == [] then b else Play(prune, w, Step(prune, w, b, ms[0]), ms[1..])
  }

  /** The run as the log sees it. */
  function LogRun(prune: bool, w: Logs.Wording, b: Both, ms: seq<Move>): seq<Logs.Event>
    requires Linked(b) && PossibleRun(prune, w, b, ms)
    decreases |ms|
  {
    if ms == [] then []
    else
      var rest := LogRun(prune, w, Step(prune, w, b, ms[0]), ms[1..]);
      if EventOf(b, ms[0]).Some? then [EventOf(b, ms[0]).value] + rest else rest
  }

  /** Every interleaving of the handlers' transactions with lines is a run of the log, in which the
      claim that lines are checked against is the row's. */
  lemma {:induction false} EveryRunIsALogRun(prune: bool, w: Logs.Wording, b: Both, ms: seq<Move>)
    requires Linked(b) && PossibleRun(prune, w, b, ms)
    ensures Logs.PossibleRun(prune, w, b.log, LogRun(prune, w, b, ms))
    ensures Logs.Play(prune, w, b.log, LogRun(prune, w, b, ms)) == Play(prune, w, b, ms).log
    ensures Play(prune, w, b, ms).log.store.claim == Play(prune, w, b, ms).rows.job.claimedAt
    decreases |ms|
  {
    if ms != [] {
      var next := Step(prune, w, b, ms[0]);
      EveryRunIsALogRun(prune, w, next, ms[1..]);
      var rest := LogRun(prune, w, next, ms[1..]);
      if EventOf(b, ms[0]).Some? {
        assert ([EventOf(b, ms[0]).value] + rest)[1..] == rest;
      }
    }
  }

  // ---- The log theorem over transactions and lines

  /** The rows from 0 on are the current run's lines in every state. */
  ghost predicate AlwaysOnlyCurrent(prune: bool, w: Logs.Wording, b: Both, ms: seq<Move>)
    requires Linked(b) && PossibleRun(prune, w, b, ms)
    decreases |ms|
  {
    Logs.OnlyCurrent(b.log) && (ms == [] || AlwaysOnlyCurrent(prune, w, Step(prune, w, b, ms[0]), ms[1..]))
  }

  /** An upload commits after the requeue that followed its read, or a line of the live run comes
      after a start report wrote over its claim. */
  predicate Disturbs(b: Both, m: Move) {
    m.Line? && (Logs.Misfiles(b.log, m.event) || Logs.Drops(b.log, m.event))
  }

  predicate Undisturbed(prune: bool, w: Logs.Wording, b: Both, ms: seq<Move>)
    requires Linked(b) && PossibleRun(prune, w, b, ms)
    decreases |ms|
  {
    ms == [] || (!Disturbs(b, ms[0]) && Undisturbed(prune, w, Step(prune, w, b, ms[0]), ms[1..]))
  }

  lemma {:induction false} UndisturbedAlike(prune: bool, w: Logs.Wording, b: Both, ms: seq<Move>)
    requires Linked(b) && PossibleRun(prune, w, b, ms)
    requires Logs.PossibleRun(prune, w, b.log, LogRun(prune, w, b, ms))
    ensures Undisturbed(prune, w, b, ms) <==> Logs.Undisturbed(prune, w, b.log, LogRun(prune, w, b, ms))
    ensures AlwaysOnlyCurrent(prune, w, b, ms)
            <==> Logs.AlwaysOnlyCurrent(prune, w, b.log, LogRun(prune, w, b, ms))
    decreases |ms|
  {
    if ms != [] {
      var next := Step(prune, w, b, ms[0]);
      var rest := LogRun(prune, w, next, ms[1..]);
      EveryRunIsALogRun(prune, w, next, ms[1..]);
      UndisturbedAlike(prune, w, next, ms[1..]);
      if EventOf(b, ms[0]).Some? {
        assert ([EventOf(b, ms[0]).value] + rest)[1..] == rest;
      }
    }
  }

  /** A job as it is created, with no line stored. */
  predicate Fresh(b: Both) {
    b.rows.job.status == Queued && b.rows.job.claimedAt.None? && b.log == Logs.EMPTY
  }

  /** From a fresh job on, whatever handlers write, on whatever copies, and in whatever order lines
      come: the rows from 0 on are the current run's lines throughout if and only if no line of the
      run is misfiled or dropped. */
  lemma {:induction false} RowsStayCurrentExactly(prune: bool, w: Logs.Wording, b: Both, ms: seq<Move>)
    requires Logs.Sound(w) && Fresh(b) && PossibleRun(prune, w, b, ms)
    ensures AlwaysOnlyCurrent(prune, w, b, ms) <==> Undisturbed(prune, w, b, ms)
  {
    EveryRunIsALogRun(prune, w, b, ms);
    UndisturbedAlike(prune, w, b, ms);
    Logs.OnlyCurrentExactly(prune, w, LogRun(prune, w, b, ms));
  }
}
