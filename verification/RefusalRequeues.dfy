/**
 * A worker refused by an upgrade leaves the registry before it keeps the failure it reports, so a
 * list can miss the job, and a requeue can put it back while the report is kept. This module says
 * from which states of the protocol exactly.
 */
module RefusalRequeues {
  import opened Wrappers
  import opened JobRows
  import opened JobProtocol
  import JobRaces
  import AM = AgentModel

  predicate NoRefusal(events: seq<Event>, job: int) {
    forall i :: 0 <= i < |events| ==> events[i] != AgentStep(AM.Refuse(job))
  }

  /** The list at work puts the job back on the queue while a refusal's report is kept. */
  predicate RequeuesReported(s: System, job: int) {
    && job in s.jobs && Can(s, SettleJob(job))
    && s.jobs[job].rows.job.status != Queued && Next(s, SettleJob(job)).jobs[job].rows.job.status == Queued
    && job in s.agent.kept && s.agent.kept[job] == AM.OfRefusal
  }

  ghost predicate CanRequeueReported(s: System, job: int) {
    exists events: seq<Event> :: NoRefusal(events, job) && After(s, events).Some?
        && RequeuesReported(After(s, events).value, job)
  }

  /** The row is one a requeue may still reach. */
  predicate Requeueable(s: System, job: int) {
    && job in s.jobs && !s.jobs[job].rows.job.payload.requestScoped
    && s.jobs[job].rows.job.status in {Queued, Claimed, Running}
  }

  lemma {:induction false} ScopeStays(s: System, e: Event, job: int)
    requires Inv(s) && Can(s, e) && job in s.jobs
    ensures job in Next(s, e).jobs && Next(s, e).jobs[job].rows.job.payload == s.jobs[job].rows.job.payload
  {
    assert JobOk(s, job);
    RowChangesBy(s, e, job);
    if (e.Transact? || e.Deliver?) && e.job == job {
      TransactionsBehave(e.txn, s.jobs[job].rows);
    }
  }

  lemma {:induction false} NotRequeueableStays(s: System, e: Event, job: int)
    requires Inv(s) && Can(s, e) && job in s.jobs && !Requeueable(s, job)
    ensures job in Next(s, e).jobs && !Requeueable(Next(s, e), job)
  {
    ScopeStays(s, e, job);
    if CancelStands(s, job) {
      CancelSurvivesStep(s, e, job);
    }
  }

  predicate KeptRefusal(s: System, job: int) {
    job in s.agent.kept && s.agent.kept[job] == AM.OfRefusal
  }

  // ---- The lists that can do it

  /** A hello still to be handled misses the job. */
  predicate MissedByHello(s: System, job: int) {
    exists i :: 0 <= i < |s.hellos| && job !in s.hellos[i].ids
  }

  /** The list at work is about to put the job back: its copy says so, and the row has the copy's
      status, or will once the start report comes that the copy has seen. */
  predicate HandledRequeues(s: System, job: int)
    requires job in s.jobs
  {
    && s.handling.Handling? && job in s.handling.copies
    && Decide(s.handling.copies[job], PresenceOf(s.handling, job)) == PutBack
    && (s.jobs[job].rows.job.status == s.handling.copies[job].status
        || (s.jobs[job].rows.job.status == Claimed && s.handling.copies[job].status == Running))
  }

  /** The session is the connected one when nothing is at work, now or after a hello under way. */
  predicate WillConnect(s: System, session: nat) {
    || (s.connected == Some(session) && !(s.handling.Handling? && s.handling.atHello))
    || (s.handling.Handling? && s.handling.atHello && s.handling.list.session == session)
    || exists i :: 0 <= i < |s.hellos| && s.hellos[i].session == session
  }

  /** A heartbeat misses the job, can still be handled in time, and by then the row has been silent
      for the whole window. */
  predicate BeatRequeues(s: System, job: int, beat: List)
    requires job in s.jobs
  {
    var row := s.jobs[job].rows.job;
    && beat in s.beats && job !in beat.ids && WillConnect(s, beat.session)
    && row.status in {Claimed, Running} && !row.payload.requestScoped
    && InTime(s, beat)
    && row.updatedAt + STALE_AGENT_JOB_REQUEUE_AFTER <= beat.takenAt + s.timing.transit.value
  }

  predicate SomeListRequeues(s: System, job: int)
    requires job in s.jobs
  {
    MissedByHello(s, job) || HandledRequeues(s, job) || exists beat :: beat in s.beats && BeatRequeues(s, job, beat)
  }

  // ---- Nothing else can

  /** No refusal's report is still to be kept, and if one is kept, no list can do it. */
  predicate Blocked(s: System, job: int)
    requires job in s.jobs
  {
    AM.WorkOf(s.agent, job).refusing == 0 && (KeptRefusal(s, job) ==> !SomeListRequeues(s, job))
  }

  lemma {:induction false} HelloWasMissing(s: System, e: Event, job: int)
    requires Can(s, e) && KeptRefusal(s, job) && MissedByHello(Next(s, e), job)
    ensures MissedByHello(s, job)
  {
    var i :| 0 <= i < |Next(s, e).hellos| && job !in Next(s, e).hellos[i].ids;
    if e.LoadHello? {
      assert s.hellos[i + 1] == Next(s, e).hellos[i];
    } else {
      assert i < |s.hellos| && s.hellos[i] == Next(s, e).hellos[i];
    }
  }

  /** A job leaves the queue, and starts, with a stamp; and it never goes back from running to
      claimed. */
  lemma {:induction false} ActiveMoves(t: Txn, r: Rows)
    requires !t.Requeue? && !t.Claim? && JobRaces.Fits(t, r)
    requires Apply(t, r).rows.job.status in {Claimed, Running} && Apply(t, r).rows.job.status != r.job.status
    ensures Apply(t, r).rows.job.updatedAt == TxnTime(t)
    ensures r.job.status != Queued ==> r.job.status == Claimed && Apply(t, r).rows.job.status == Running
  {
  }

  lemma {:induction false} LoadedWasListed(s: System, e: Event, job: int)
    requires Inv(s) && Can(s, e) && job in s.jobs && (e.LoadHello? || e.LoadBeat?)
    requires HandledRequeues(Next(s, e), job)
    ensures SomeListRequeues(s, job)
  {
    if e.LoadHello? {
      assert job !in s.hellos[0].ids;
    } else {
      assert BeatRequeues(s, job, e.beat);
    }
  }

  lemma {:induction false} RowWasHandled(s: System, job: int, t: Txn)
    requires Inv(s) && Can(s, Transact(job, t)) && HandledRequeues(Next(s, Transact(job, t)), job)
    ensures HandledRequeues(s, job)
  {
    assert JobOk(s, job);
    var r := s.jobs[job].rows;
    if Apply(t, r).rows.job.status != r.job.status {
      ActiveMoves(t, r);
    }
  }

  lemma {:induction false} HandledWasRequeueing(s: System, e: Event, job: int)
    requires Inv(s) && Can(s, e) && job in s.jobs && !e.LoadHello? && !e.LoadBeat?
    requires job in Next(s, e).jobs && HandledRequeues(Next(s, e), job)
    ensures HandledRequeues(s, job)
  {
    assert JobOk(s, job);
    if e.Transact? && e.job == job {
      RowWasHandled(s, job, e.txn);
    } else if e.Deliver? && e.job == job {
      DeliverIsTwoSteps(s, job, e.txn);
      assert HandledRequeues(Next(s, Transact(job, e.txn)), job);
      RowWasHandled(s, job, e.txn);
    }
  }

  lemma {:induction false} WouldConnect(s: System, e: Event, session: nat)
    requires Can(s, e) && WillConnect(Next(s, e), session)
    requires e.SendList? && s.stage.HelloListing? ==> session < s.session
    ensures WillConnect(s, session)
  {
    var t := Next(s, e);
    if exists i :: 0 <= i < |t.hellos| && t.hellos[i].session == session {
      var i :| 0 <= i < |t.hellos| && t.hellos[i].session == session;
      if e.LoadHello? {
        assert s.hellos[i + 1] == t.hellos[i];
      } else {
        assert i < |s.hellos| && s.hellos[i] == t.hellos[i];
      }
    } else if e.LoadHello? {
      assert s.hellos[0].session == session;
    }
  }

  lemma {:induction false} SilentBeforeReport(t: Txn, r: Rows, now: int)
    requires !t.Requeue? && !t.Claim? && TxnTime(t) == now && JobRaces.Fits(t, r)
    requires Apply(t, r).rows.job.status in {Claimed, Running} && Apply(t, r).rows.job.updatedAt < now
    requires r.job.updatedAt <= now
    ensures r.job.status == Apply(t, r).rows.job.status
    ensures r.job.updatedAt <= Apply(t, r).rows.job.updatedAt
  {
    if Apply(t, r).rows.job.status != r.job.status {
      ActiveMoves(t, r);
    }
  }

  /** A row that is claimed or running and silent for the window was so before. */
  lemma {:induction false} SilentBefore(s: System, e: Event, job: int)
    requires Inv(s) && Can(s, e) && job in s.jobs && job in Next(s, e).jobs
    requires Next(s, e).jobs[job].rows.job.status in {Claimed, Running}
    requires Next(s, e).jobs[job].rows.job.updatedAt < s.now
    ensures s.jobs[job].rows.job.status == Next(s, e).jobs[job].rows.job.status
    ensures s.jobs[job].rows.job.updatedAt <= Next(s, e).jobs[job].rows.job.updatedAt
    ensures s.jobs[job].rows.job.payload == Next(s, e).jobs[job].rows.job.payload
  {
    assert JobOk(s, job);
    RowChangesBy(s, e, job);
    if (e.Transact? || e.Deliver?) && e.job == job {
      TransactionsBehave(e.txn, s.jobs[job].rows);
      SilentBeforeReport(e.txn, s.jobs[job].rows, s.now);
    }
  }

  /** Only an event of the job itself changes its row. */
  lemma {:induction false} RowChangesBy(s: System, e: Event, job: int)
    requires Can(s, e) && job in s.jobs
    ensures job in Next(s, e).jobs
    ensures Next(s, e).jobs[job].rows == s.jobs[job].rows
            || ((e.Transact? || e.Deliver? || e.Dispatch? || e.SettleJob?) && e.job == job)
  {
  }

  lemma {:induction false} BeatWasRequeueing(s: System, e: Event, job: int, beat: List)
    requires Inv(s) && Can(s, e) && job in s.jobs && KeptRefusal(s, job)
    requires job in Next(s, e).jobs && BeatRequeues(Next(s, e), job, beat)
    ensures BeatRequeues(s, job, beat)
  {
    assert beat in s.beats && beat.takenAt <= s.now;
    SilentBefore(s, e, job);
    WouldConnect(s, e, beat.session);
  }

  lemma {:induction false} StepKeepsBlocked(s: System, e: Event, job: int)
    requires Inv(s) && Can(s, e) && job in s.jobs && Blocked(s, job) && e != AgentStep(AM.Refuse(job))
    ensures job in Next(s, e).jobs && Blocked(Next(s, e), job)
  {
    var t := Next(s, e);
    ScopeStays(s, e, job);
    RefusingStays(s, e, job);
    if KeptRefusal(t, job) {
      RefusalTraceStays(s, e, job);
      if MissedByHello(t, job) {
        HelloWasMissing(s, e, job);
      }
      if HandledRequeues(t, job) {
        if e.LoadHello? || e.LoadBeat? {
          LoadedWasListed(s, e, job);
        } else {
          HandledWasRequeueing(s, e, job);
        }
      }
      forall beat | beat in t.beats ensures !BeatRequeues(t, job, beat) {
        if BeatRequeues(t, job, beat) {
          BeatWasRequeueing(s, e, job, beat);
        }
      }
    }
  }

  lemma {:induction false} OnlyRefusalsRefuse(a: AM.Agent, step: AM.Step, job: int)
    requires AM.Can(a, step) && step != AM.Refuse(job) && AM.WorkOf(a, job).refusing == 0
    ensures AM.WorkOf(AM.Next(a, step), job).refusing == 0
  {
  }

  lemma {:induction false} RefusingStays(s: System, e: Event, job: int)
    requires Can(s, e) && e != AgentStep(AM.Refuse(job)) && AM.WorkOf(s.agent, job).refusing == 0
    ensures AM.WorkOf(Next(s, e).agent, job).refusing == 0
  {
    match e
    case AgentStep(step) => OnlyRefusalsRefuse(s.agent, step, job);
    case ReadCommand(k, selfCancelling) => OnlyRefusalsRefuse(s.agent, AM.Receive(k, selfCancelling), job);
    case HandleCancel(k) => OnlyRefusalsRefuse(s.agent, AM.SignalCancel(k), job);
    case Deliver(k, _) => OnlyRefusalsRefuse(s.agent, AM.Settle(k), job);
    case _ =>
  }

  lemma {:induction false} RequeueIsHandled(s: System, job: int)
    requires Inv(s) && RequeuesReported(s, job)
    ensures KeptRefusal(s, job) && HandledRequeues(s, job) && Requeueable(s, job)
  {
    assert JobOk(s, job);
  }

  lemma {:induction false} BlockedIsNotRequeued(s: System, events: seq<Event>, job: int)
    requires Inv(s) && job in s.jobs && NoRefusal(events, job) && After(s, events).Some?
    requires Blocked(s, job) || !Requeueable(s, job)
    ensures !RequeuesReported(After(s, events).value, job)
    decreases |events|
  {
    if events == [] {
      if RequeuesReported(s, job) {
        RequeueIsHandled(s, job);
      }
    } else {
      StepKeepsInv(s, events[0]);
      assert forall i :: 0 <= i < |events[1..]| ==> events[1..][i] == events[i + 1];
      if !Requeueable(s, job) {
        NotRequeueableStays(s, events[0], job);
      } else {
        StepKeepsBlocked(s, events[0], job);
      }
      BlockedIsNotRequeued(Next(s, events[0]), events[1..], job);
    }
  }

  // ---- Each of them can

  lemma {:induction false} GoOn(s: System, e: Event, job: int)
    requires Can(s, e) && e != AgentStep(AM.Refuse(job)) && CanRequeueReported(Next(s, e), job)
    ensures CanRequeueReported(s, job)
  {
    var events: seq<Event> :| NoRefusal(events, job) && After(Next(s, e), events).Some?
                              && RequeuesReported(After(Next(s, e), events).value, job);
    assert ([e] + events)[1..] == events;
    assert NoRefusal([e] + events, job);
  }

  // A refusal still to be reported, on a job that may be requeued: step by step to such a requeue.

  predicate Pending(s: System, job: int) {
    Requeueable(s, job) && AM.WorkOf(s.agent, job).refusing > 0
  }

  predicate Gone(s: System, job: int) {
    job !in s.agent.reg.events && job !in s.agent.kept
  }

  /** The next hello misses the job, then the report is kept, then the hello settles it. */
  lemma {:induction false} UnlistedIsRequeued(s: System, job: int)
    requires Pending(s, job) && s.handling.Handling? && s.handling.atHello && s.handling.complete
    requires job !in s.handling.list.ids && job in s.handling.copies && s.handling.copies[job] == s.jobs[job].rows.job
    requires s.jobs[job].rows.job.status != Queued
    ensures CanRequeueReported(s, job)
  {
    var t := Next(s, AgentStep(AM.KeepRefusal(job)));
    assert RequeuesReported(t, job);
    assert After(t, []) == Some(t) && NoRefusal([], job);
    GoOn(s, AgentStep(AM.KeepRefusal(job)), job);
  }

  lemma {:induction false} NewSessionMissesIt(s: System, job: int)
    requires Pending(s, job) && Gone(s, job) && s.handling.Resting? && s.hellos == [] && s.connected.None?
             && s.stage == Connecting
    requires s.jobs[job].rows.job.status != Queued
    ensures CanRequeueReported(s, job)
  {
    var t := Next(s, ReadRegistry);
    var u := Next(t, SendList);
    var v := Next(u, LoadHello);
    UnlistedIsRequeued(v, job);
    GoOn(u, LoadHello, job);
    GoOn(t, SendList, job);
    GoOn(s, ReadRegistry, job);
  }

  lemma {:induction false} ClaimedIsRequeued(s: System, job: int)
    requires Pending(s, job) && Gone(s, job) && s.handling.Resting? && s.hellos == []
    requires s.jobs[job].rows.job.status != Queued
    ensures CanRequeueReported(s, job)
  {
    var t := Next(s, Disconnect);
    var u := Next(t, Reconnect);
    NewSessionMissesIt(u, job);
    GoOn(t, Reconnect, job);
    GoOn(s, Disconnect, job);
  }

  lemma {:induction false} QueuedIsDispatched(s: System, job: int)
    requires Pending(s, job) && Gone(s, job) && s.handling.Resting? && s.hellos == [] && s.connected.Some?
    requires s.jobs[job].rows.job.status == Queued
    ensures CanRequeueReported(s, job)
  {
    ClaimedIsRequeued(Next(s, Dispatch(job)), job);
    GoOn(s, Dispatch(job), job);
  }

  lemma {:induction false} QueuedIsGreeted(s: System, job: int)
    requires Pending(s, job) && Gone(s, job) && s.handling.Resting? && s.hellos == [] && s.stage == Connecting
    requires s.jobs[job].rows.job.status == Queued
    ensures CanRequeueReported(s, job)
  {
    var t := Next(s, ReadRegistry);
    var u := Next(t, SendList);
    var v := Next(u, LoadHello);
    QueuedIsDispatched(Next(v, FinishList), job);
    GoOn(v, FinishList, job);
    GoOn(u, LoadHello, job);
    GoOn(t, SendList, job);
    GoOn(s, ReadRegistry, job);
  }

  lemma {:induction false} QueuedIsRequeued(s: System, job: int)
    requires Pending(s, job) && Gone(s, job) && s.handling.Resting? && s.hellos == []
    requires s.jobs[job].rows.job.status == Queued
    ensures CanRequeueReported(s, job)
  {
    QueuedIsGreeted(Next(s, Reconnect), job);
    GoOn(s, Reconnect, job);
  }

  /** What is under way at the server is handled first. */
  lemma {:induction false} GoneIsRequeued(s: System, job: int)
    requires Pending(s, job) && Gone(s, job)
    ensures CanRequeueReported(s, job)
    decreases |s.hellos|, s.handling.Handling?
  {
    if s.handling.Handling? {
      GoneIsRequeued(Next(s, FinishList), job);
      GoOn(s, FinishList, job);
    } else if s.hellos != [] {
      GoneIsRequeued(Next(s, LoadHello), job);
      GoOn(s, LoadHello, job);
    } else if s.jobs[job].rows.job.status == Queued {
      QueuedIsRequeued(s, job);
    } else {
      ClaimedIsRequeued(s, job);
    }
  }

  /** How far the agent is from holding and keeping nothing for the job. */
  function Distance(a: AM.Agent, job: int): nat {
    match AM.WorkOf(a, job).phase
    case Registered => if a.reg.upgradingUntil.Some? then 6 else 5
    case Accepted => 4
    case Running => 3
    case Reported => 2
    case Absent => if job in a.kept then 1 else 0
  }

  /** The agent's next step on the way there. */
  function NextStep(a: AM.Agent, job: int): AM.Step {
    match AM.WorkOf(a, job).phase
    case Registered => if a.reg.upgradingUntil.Some? then AM.ReleaseUpgrade else AM.Accept(job)
    case Accepted => AM.Start(job)
    case Running => AM.Report(job)
    case Reported => AM.Leave(job)
    case Absent => AM.Settle(job)
  }

  lemma {:induction false} AgentComesCloser(a: AM.Agent, job: int)
    requires Distance(a, job) > 0
    ensures var step := NextStep(a, job);
            && AM.Can(a, step) && !step.Receive? && !step.SignalCancel? && step != AM.Refuse(job)
            && Distance(AM.Next(a, step), job) < Distance(a, job)
            && AM.WorkOf(AM.Next(a, step), job).refusing == AM.WorkOf(a, job).refusing
  {
  }

  lemma {:induction false} PendingIsRequeued(s: System, job: int)
    requires Inv(s) && Pending(s, job)
    ensures CanRequeueReported(s, job)
    decreases Distance(s.agent, job)
  {
    if Distance(s.agent, job) == 0 {
      assert JobOk(s, job) && AM.JobInv(s.agent, job);
      GoneIsRequeued(s, job);
    } else {
      var e := AgentStep(NextStep(s.agent, job));
      AgentComesCloser(s.agent, job);
      StepKeepsInv(s, e);
      PendingIsRequeued(Next(s, e), job);
      GoOn(s, e, job);
    }
  }

  lemma {:induction false} RequeuesNow(s: System, job: int)
    requires RequeuesReported(s, job)
    ensures CanRequeueReported(s, job)
  {
    assert After(s, []) == Some(s) && NoRefusal([], job);
  }

  lemma {:induction false} HandledIsRequeued(s: System, job: int)
    requires Inv(s) && job in s.jobs && KeptRefusal(s, job) && HandledRequeues(s, job)
    ensures CanRequeueReported(s, job)
  {
    assert JobOk(s, job);
    if s.jobs[job].rows.job.status == s.handling.copies[job].status {
      RequeuesNow(s, job);
    } else {
      var start := Transact(job, Start(s.jobs[job].rows.job, None, s.now));
      RequeuesNow(Next(s, start), job);
      GoOn(s, start, job);
    }
  }

  /** With no session connected, a hello that misses an unfinished job puts it back. */
  lemma {:induction false} NextHelloRequeues(s: System, job: int)
    requires Requeueable(s, job) && KeptRefusal(s, job) && s.jobs[job].rows.job.status != Queued
    requires s.handling.Resting? && s.connected.None? && s.hellos != [] && job !in s.hellos[0].ids
    ensures CanRequeueReported(s, job)
  {
    RequeuesNow(Next(s, LoadHello), job);
    GoOn(s, LoadHello, job);
  }

  lemma {:induction false} NextHelloMissesIt(s: System, job: int)
    requires Requeueable(s, job) && KeptRefusal(s, job)
    requires s.handling.Resting? && s.hellos != [] && job !in s.hellos[0].ids
    ensures CanRequeueReported(s, job)
  {
    var t := Next(s, Disconnect);
    if s.jobs[job].rows.job.status == Queued {
      var ack := Transact(job, Ack(s.now));
      NextHelloRequeues(Next(t, ack), job);
      GoOn(t, ack, job);
    } else {
      NextHelloRequeues(t, job);
    }
    GoOn(s, Disconnect, job);
  }

  lemma {:induction false} HelloIsRequeued(s: System, job: int, i: nat)
    requires Requeueable(s, job) && KeptRefusal(s, job) && i < |s.hellos| && job !in s.hellos[i].ids
    ensures CanRequeueReported(s, job)
    decreases |s.hellos|, s.handling.Handling?
  {
    if s.handling.Handling? {
      HelloIsRequeued(Next(s, FinishList), job, i);
      GoOn(s, FinishList, job);
    } else if i > 0 {
      assert Next(s, LoadHello).hellos[i - 1] == s.hellos[i];
      HelloIsRequeued(Next(s, LoadHello), job, i - 1);
      GoOn(s, LoadHello, job);
    } else {
      NextHelloMissesIt(s, job);
    }
  }

  predicate NobodyLive(s: System) {
    forall job :: job in s.jobs ==> Live(s, job) == 0
  }

  lemma {:induction false} BeatIsLoaded(s: System, job: int, beat: List)
    requires job in s.jobs && KeptRefusal(s, job) && BeatRequeues(s, job, beat)
    requires s.handling.Resting? && s.connected == Some(beat.session)
    requires s.jobs[job].rows.job.updatedAt + STALE_AGENT_JOB_REQUEUE_AFTER <= s.now
    ensures CanRequeueReported(s, job)
  {
    RequeuesNow(Next(s, LoadBeat(beat)), job);
    GoOn(s, LoadBeat(beat), job);
  }

  lemma {:induction false} BeatIsAwaited(s: System, job: int, beat: List)
    requires job in s.jobs && KeptRefusal(s, job) && BeatRequeues(s, job, beat) && NobodyLive(s)
    requires s.handling.Resting? && s.connected == Some(beat.session)
    ensures CanRequeueReported(s, job)
  {
    var due := s.jobs[job].rows.job.updatedAt + STALE_AGENT_JOB_REQUEUE_AFTER;
    if due <= s.now {
      BeatIsLoaded(s, job, beat);
    } else {
      BeatIsLoaded(Next(s, Pass(due - s.now)), job, beat);
      GoOn(s, Pass(due - s.now), job);
    }
  }

  lemma {:induction false} BeatIsConnected(s: System, job: int, beat: List)
    requires job in s.jobs && KeptRefusal(s, job) && BeatRequeues(s, job, beat) && NobodyLive(s)
    ensures CanRequeueReported(s, job)
    decreases |s.hellos|, s.handling.Handling?
  {
    if s.handling.Handling? {
      var t := Next(s, FinishList);
      assert WillConnect(t, beat.session);
      BeatIsConnected(t, job, beat);
      GoOn(s, FinishList, job);
    } else if s.connected == Some(beat.session) {
      BeatIsAwaited(s, job, beat);
    } else {
      var t := Next(s, LoadHello);
      HelloWillConnect(s, beat.session);
      BeatIsConnected(t, job, beat);
      GoOn(s, LoadHello, job);
    }
  }

  lemma {:induction false} HelloWillConnect(s: System, session: nat)
    requires s.handling.Resting? && WillConnect(s, session) && s.connected != Some(session)
    ensures Can(s, LoadHello) && WillConnect(Next(s, LoadHello), session)
  {
    var i :| 0 <= i < |s.hellos| && s.hellos[i].session == session;
    if i > 0 {
      assert Next(s, LoadHello).hellos[i - 1] == s.hellos[i];
    }
  }

  /** The agent opens a new session first, so that no command under way holds up the clock. */
  lemma {:induction false} BeatIsRequeued(s: System, job: int, beat: List)
    requires Inv(s) && job in s.jobs && KeptRefusal(s, job) && BeatRequeues(s, job, beat)
    ensures CanRequeueReported(s, job)
  {
    var t := Next(s, Reconnect);
    forall k | k in t.jobs ensures Live(t, k) == 0 {
      assert JobOk(s, k);
      assert s.session + 1 !in s.jobs[k].commands;
    }
    BeatIsConnected(t, job, beat);
    GoOn(s, Reconnect, job);
  }

  /**
   * From any reachable state, without a further refusal, the job can be requeued while the report
   * of a refused worker is kept if and only if the row is one a requeue may still reach, and either
   * such a worker has its report still to keep, or the report is kept and a list under way misses
   * the job: a hello still to be handled, the list at work, or a heartbeat that is still in time
   * when the window has passed.
   */
  lemma {:induction false} RequeuedReportedExactly(s: System, job: int)
    requires Inv(s) && job in s.jobs
    ensures CanRequeueReported(s, job)
            <==> Requeueable(s, job)
                 && (AM.WorkOf(s.agent, job).refusing > 0 || (KeptRefusal(s, job) && SomeListRequeues(s, job)))
  {
    if Pending(s, job) {
      PendingIsRequeued(s, job);
    } else if Requeueable(s, job) && KeptRefusal(s, job) && SomeListRequeues(s, job) {
      ListIsRequeued(s, job);
    } else {
      forall events: seq<Event> | NoRefusal(events, job) && After(s, events).Some?
        ensures !RequeuesReported(After(s, events).value, job)
      {
        BlockedIsNotRequeued(s, events, job);
      }
    }
  }

  lemma {:induction false} ListIsRequeued(s: System, job: int)
    requires Inv(s) && Requeueable(s, job) && KeptRefusal(s, job) && SomeListRequeues(s, job)
    ensures CanRequeueReported(s, job)
  {
    if MissedByHello(s, job) {
      var i :| 0 <= i < |s.hellos| && job !in s.hellos[i].ids;
      HelloIsRequeued(s, job, i);
    } else if HandledRequeues(s, job) {
      HandledIsRequeued(s, job);
    } else {
      var beat :| beat in s.beats && BeatRequeues(s, job, beat);
      BeatIsRequeued(s, job, beat);
    }
  }
}
