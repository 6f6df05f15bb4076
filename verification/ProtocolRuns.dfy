/**
 * Runs of the job protocol, possible on a link of any timing: that its theorems are about runs that
 * exist, that what they except does happen, and what becomes of a job that leaves the queue without
 * being dispatched.
 */
module ProtocolRuns {
  import opened Wrappers
  import opened JobRows
  import opened JobProtocol
  import JobRaces
  import WorkerRegistry
  import AM = AgentModel

  lemma {:induction false} Continue(timing: Timing, states: seq<System>, events: seq<Event>, e: Event)
          returns (longer: seq<System>, more: seq<Event>)
    requires IsTimedRun(timing, states, events) && Can(states[|events|], e)
    ensures IsTimedRun(timing, longer, more) && states <= longer && events <= more
    ensures |more| == |events| + 1 && more[|events|] == e && longer[|more|] == Next(states[|events|], e)
  {
    longer, more := states + [Next(states[|events|], e)], events + [e];
    forall i | 0 <= i < |more| ensures Can(longer[i], more[i]) && longer[i + 1] == Next(longer[i], more[i]) {
      if i < |events| {
        assert longer[i] == states[i] && longer[i + 1] == states[i + 1] && more[i] == events[i];
      }
    }
  }

  /** The session's hello is listed, sent and loaded. */
  lemma {:induction false} Greet(timing: Timing, before: seq<System>, past: seq<Event>)
          returns (states: seq<System>, events: seq<Event>)
    requires IsTimedRun(timing, before, past)
    requires var s := before[|past|];
             && s.stage == Connecting && s.hellos == [] && s.handling.Resting? && s.connected.None?
             && s.agent.reg.events == map[] && s.agent.kept == map[]
    ensures IsTimedRun(timing, states, events) && before <= states && past <= events && |events| == |past| + 3
    ensures var s := before[|past|];
            states[|events|] == s.(stage := Open,
                handling := Handling(List(s.session, {}, s.now), true, true, s.now, Loaded(s)))
  {
    var s := before[|past|];
    var hello := List(s.session, {}, s.now);
    assert s.agent.reg.events.Keys == {} && {} + s.agent.kept.Keys == {};
    states, events := Continue(timing, before, past, ReadRegistry);
    assert states[|events|] == s.(stage := HelloListing({}));
    states, events := Continue(timing, states, events, SendList);
    assert s.hellos + [hello] == [hello];
    assert states[|events|] == s.(stage := Open, hellos := [hello]);
    states, events := Continue(timing, states, events, LoadHello);
    assert [hello][1..] == s.hellos;
  }

  predicate Row(s: System, job: int, payload: Payload, status: Status) {
    s.jobs.Keys == {job} && s.jobs[job].rows.job.payload == payload && s.jobs[job].rows.job.status == status
  }

  /** The agent has done nothing yet, and a session is up on which no command is under way. */
  predicate Up(s: System, job: int, session: nat) {
    && s.agent == AM.STARTED && s.handling.Resting? && s.hellos == [] && s.stage == Open
    && s.session == session && s.connected == Some(session) && job in s.jobs && Live(s, job) == 0
  }

  lemma {:induction false} FirstSession(timing: Timing, job: int, payload: Payload)
          returns (states: seq<System>, events: seq<Event>)
    ensures IsTimedRun(timing, states, events) && |events| == 5
    ensures Up(states[5], job, 1) && Row(states[5], job, payload, Queued)
    ensures states[5].jobs[job].commands == multiset{} && states[5].jobs[job].rows.job.startedAt.None?
    ensures states[5].timing == timing && states[5].now == 0 && states[5].beats == {}
  {
    states, events := Continue(timing, [Initial(timing)], [], Create(job, payload));
    states, events := Greet(timing, states, events);
    states, events := Continue(timing, states, events, FinishList);
  }

  lemma {:induction false} CommandIsLost(timing: Timing, job: int, payload: Payload)
          returns (states: seq<System>, events: seq<Event>)
    ensures IsTimedRun(timing, states, events) && |events| == 8 && events[5] == Dispatch(job)
    ensures var s := states[8];
            && s.agent == AM.STARTED && s.handling.Resting? && s.hellos == [] && s.stage == Connecting
                && s.connected.None? && s.session == 2
            && Row(s, job, payload, Claimed) && s.jobs[job].rows.job.startedAt.None?
            && s.jobs[job].commands[1] == 1 && s.jobs[job].commands[2] == 0
  {
    states, events := FirstSession(timing, job, payload);
    states, events := Continue(timing, states, events, Dispatch(job));
    assert states[6].jobs[job].commands == multiset{1};
    states, events := Continue(timing, states, events, Disconnect);
    states, events := Continue(timing, states, events, Reconnect);
  }

  lemma {:induction false} LostJobIsRequeued(timing: Timing, job: int, payload: Payload)
          returns (states: seq<System>, events: seq<Event>)
    requires !payload.requestScoped
    ensures IsTimedRun(timing, states, events) && |events| == 13
    ensures events[5] == Dispatch(job) && events[11] == SettleJob(job)
    ensures Up(states[13], job, 2) && Row(states[12], job, payload, Queued) && Row(states[13], job, payload, Queued)
    ensures states[13].jobs[job].commands[1] == 1
  {
    states, events := CommandIsLost(timing, job, payload);
    states, events := Greet(timing, states, events);
    states, events := Continue(timing, states, events, SettleJob(job));
    states, events := Continue(timing, states, events, FinishList);
  }

  /**
   * A job whose command is lost with its session is put back on the queue at the next hello,
   * dispatched again and received once, while the lost copy of its command is still under way: the
   * theorems on requeues and commands are about runs that exist.
   */
  lemma {:induction false} LostJobRunsOnce(timing: Timing, job: int, payload: Payload)
          returns (states: seq<System>, events: seq<Event>)
    requires !payload.requestScoped
    ensures IsTimedRun(timing, states, events) && |events| == 15
    ensures events[5] == events[13] == Dispatch(job) && events[11] == SettleJob(job) && events[14].ReadCommand?
            && events[14].job == job
    ensures job in states[12].jobs && states[12].jobs[job].rows.job.status == Queued
    ensures job in states[15].jobs && states[15].jobs[job].commands[1] == 1
    ensures AM.Held(states[15].agent, job)
  {
    states, events := LostJobIsRequeued(timing, job, payload);
    states, events := Continue(timing, states, events, Dispatch(job));
    states, events := Continue(timing, states, events, ReadCommand(job, false));
  }

  // ---- A refused job requeued with its report under way

  /** What stays between the steps of the run below: an idle session, and a refusal to report. */
  predicate Refused(s: System, job: int, payload: Payload) {
    && s.agent.reg.events == map[] && s.handling.Resting? && s.hellos == [] && s.connected.None?
        && s.stage == Connecting
    && Row(s, job, payload, Claimed) && s.jobs[job].rows.job.startedAt.None? && s.session == 2
    && AM.WorkOf(s.agent, job).refusing == 1 && AM.WorkOf(s.agent, job).phase == AM.Absent && s.agent.kept == map[]
    && s.jobs[job].commands[2] == 0
  }

  lemma {:induction false} CommandIsRead(timing: Timing, job: int, payload: Payload)
          returns (states: seq<System>, events: seq<Event>)
    ensures IsTimedRun(timing, states, events) && |events| == 8
    ensures var s := states[8];
            && s.agent.reg.events == map[job := false]
                && s.agent.reg.upgradingUntil == Some(WorkerRegistry.UPGRADE_CLAIM_SECONDS) && s.agent.now == 0.0
            && s.handling.Resting? && s.hellos == [] && s.connected == Some(1) && s.session == 1
            && Row(s, job, payload, Claimed) && s.jobs[job].rows.job.startedAt.None?
            && AM.WorkOf(s.agent, job) == AM.NO_WORK.(phase := AM.Registered) && s.agent.kept == map[]
            && s.jobs[job].commands[2] == 0
  {
    states, events := FirstSession(timing, job, payload);
    states, events := Continue(timing, states, events, AgentStep(AM.ReserveUpgrade));
    states, events := Continue(timing, states, events, Dispatch(job));
    assert states[7].jobs[job].commands == multiset{1};
    states, events := Continue(timing, states, events, ReadCommand(job, false));
  }

  lemma {:induction false} CommandIsRefused(timing: Timing, job: int, payload: Payload)
          returns (states: seq<System>, events: seq<Event>)
    ensures IsTimedRun(timing, states, events) && |events| == 9 && events[8] == AgentStep(AM.Refuse(job))
    ensures var s := states[9];
            && s.agent.reg.events == map[] && s.handling.Resting? && s.hellos == [] && s.connected == Some(1)
                && s.session == 1
            && Row(s, job, payload, Claimed) && s.jobs[job].rows.job.startedAt.None?
            && AM.WorkOf(s.agent, job).refusing == 1 && AM.WorkOf(s.agent, job).phase == AM.Absent
                && s.agent.kept == map[]
            && s.jobs[job].commands[2] == 0
  {
    states, events := CommandIsRead(timing, job, payload);
    states, events := Continue(timing, states, events, AgentStep(AM.Refuse(job)));
    assert states[9].agent.reg.events == map[];
  }

  lemma {:induction false} RefusedSessionEnds(timing: Timing, job: int, payload: Payload)
          returns (states: seq<System>, events: seq<Event>)
    ensures IsTimedRun(timing, states, events) && |events| == 11 && events[8] == AgentStep(AM.Refuse(job))
            && Refused(states[11], job, payload)
  {
    states, events := CommandIsRefused(timing, job, payload);
    states, events := Continue(timing, states, events, Disconnect);
    states, events := Continue(timing, states, events, Reconnect);
  }

  lemma {:induction false} RefusedJobIsUnlisted(timing: Timing, job: int, payload: Payload)
          returns (states: seq<System>, events: seq<Event>)
    ensures IsTimedRun(timing, states, events) && |events| == 15
    ensures var s := states[15];
            && Row(s, job, payload, Claimed) && s.agent.kept == map[job := AM.OfRefusal]
            && s.handling.Handling? && s.handling.list == List(2, {}, s.now) && s.handling.atHello
                && s.handling.complete
            && s.handling.copies == map[job := s.jobs[job].rows.job]
            && s.connected.None? && s.session == 2 && s.stage == Open && s.jobs[job].commands[2] == 0
  {
    states, events := RefusedSessionEnds(timing, job, payload);
    states, events := Greet(timing, states, events);
    states, events := Continue(timing, states, events, AgentStep(AM.KeepRefusal(job)));
  }

  lemma {:induction false} RefusedJobIsRequeued(timing: Timing, job: int, payload: Payload)
          returns (states: seq<System>, events: seq<Event>)
    requires !payload.requestScoped
    ensures IsTimedRun(timing, states, events) && |events| == 17 && events[15] == SettleJob(job)
    ensures Row(states[15], job, payload, Claimed) && Row(states[16], job, payload, Queued)
            && Row(states[17], job, payload, Queued)
    ensures states[15].agent.kept == states[16].agent.kept == states[17].agent.kept == map[job := AM.OfRefusal]
    ensures var s := states[17];
            s.connected == Some(2) && s.session == 2 && s.stage == Open && s.jobs[job].commands[2] == 0
  {
    states, events := RefusedJobIsUnlisted(timing, job, payload);
    states, events := Continue(timing, states, events, SettleJob(job));
    states, events := Continue(timing, states, events, FinishList);
  }

  /** The exception is real: a job whose worker an upgrade refused goes back on the queue, and its
      command is read again, while the failure the refusal reports is still unsettled. */
  lemma {:induction false} RefusedJobIsReadAgain(timing: Timing, job: int, payload: Payload)
          returns (states: seq<System>, events: seq<Event>)
    requires !payload.requestScoped
    ensures IsTimedRun(timing, states, events) && |events| == 19
    ensures events[15] == SettleJob(job) && job in states[16].jobs && states[16].jobs[job].rows.job.status == Queued
    ensures states[15].agent.kept == map[job := AM.OfRefusal]
    ensures events[18] == ReadCommand(job, false) && states[18].agent.kept == map[job := AM.OfRefusal]
  {
    states, events := RefusedJobIsRequeued(timing, job, payload);
    states, events := Continue(timing, states, events, Dispatch(job));
    states, events := Continue(timing, states, events, ReadCommand(job, false));
  }

  // ---- The way of a cancel

  /** A cancel that is sent on the live session can be read and handled, and then it has reached the
      job: the worker's event is set, or the cancel waits for the worker. */
  lemma {:induction false} SentCancelArrives(s: System, job: int)
    requires Can(s, SendCancel(job)) && s.stage == Open && s.connected == Some(s.session)
    ensures var t := After(s, [SendCancel(job), ReadCancel(job), HandleCancel(job)]);
            && t.Some?
            && t.value.jobs.Keys == s.jobs.Keys && t.value.jobs[job].rows == s.jobs[job].rows
            && if job in s.agent.reg.events then job in t.value.agent.reg.events && t.value.agent.reg.events[job]
               else job in t.value.agent.reg.pending
  {
    var events := [SendCancel(job), ReadCancel(job), HandleCancel(job)];
    assert events[1..] == [ReadCancel(job), HandleCancel(job)] && events[1..][1..] == [HandleCancel(job)];
    assert events[1..][1..][1..] == [];
    var t := Next(s, SendCancel(job));
    var u := Next(t, ReadCancel(job));
    var v := Next(u, HandleCancel(job));
    assert After(v, []) == Some(v);
    assert After(u, [HandleCancel(job)]) == Some(v);
    assert After(t, events[1..]) == Some(v);
  }

  // ---- A queued job that a report or another handler took off the queue

  /** Nobody runs the job, no command for it can be read, and it is not on the queue. */
  predicate Waiting(s: System, job: int) {
    job in s.jobs && s.jobs[job].rows.job.status != Queued && Idle(s, job)
  }

  lemma {:induction false} WaitingStays(s: System, e: Event, job: int)
    requires Inv(s) && Can(s, e) && Waiting(s, job) && e != SettleJob(job)
    ensures Waiting(Next(s, e), job)
  {
    assert JobOk(s, job);
    assert e.Reconnect? ==> s.session + 1 !in s.jobs[job].commands;
    if e.Transact? {
      TransactionsBehave(e.txn, s.jobs[e.job].rows);
    } else if e.Deliver? {
      TransactionsBehave(e.txn, s.jobs[e.job].rows);
      AM.OnlyCommandsAdd(s.agent, AM.Settle(e.job), job);
    } else if e.AgentStep? {
      AM.OnlyCommandsAdd(s.agent, e.step, job);
    } else if e.HandleCancel? {
      AM.OnlyCommandsAdd(s.agent, AM.SignalCancel(e.job), job);
    } else if e.ReadCommand? && e.job != job {
      AM.OnlyCommandsAdd(s.agent, AM.Receive(e.job, e.selfCancelling), job);
    }
  }

  /** A handler's transaction other than a dispatch takes the job off the queue: a late start report
      or acknowledgement, a terminal report, a cancel request, a caller that no longer waits. */
  predicate TakenOffQueue(s: System, e: Event, job: int) {
    && (e.Transact? || e.Deliver?) && e.job == job && Can(s, e)
    && s.jobs[job].rows.job.status == Queued && Next(s, e).jobs[job].rows.job.status != Queued
  }

  /** What takes a job off the queue, told by the transaction alone. */
  lemma {:induction false} TakenOffQueueExactly(s: System, e: Event, job: int)
    requires (e.Transact? || e.Deliver?) && e.job == job && Can(s, e) && s.jobs[job].rows.job.status == Queued
    ensures TakenOffQueue(s, e, job)
            <==> e.txn.Ack? || e.txn.AskCancel? || e.txn.Abandon?
                 || ((e.txn.Start? || JobRaces.IsTerminalReport(e.txn)) && !Final(CopyOf(e.txn).value.status))
  {
  }

  lemma {:induction false} WaitBegins(states: seq<System>, events: seq<Event>, m: nat, job: int)
    requires IsRun(states, events) && m < |events| && TakenOffQueue(states[m], events[m], job)
    ensures Waiting(states[m + 1], job)
  {
    InvAt(states, events, m);
    assert JobOk(states[m], job);
    assert states[m + 1] == Next(states[m], events[m]);
  }

  lemma {:induction false} WaitGoesOn(states: seq<System>, events: seq<Event>, n: nat, job: int)
    requires IsRun(states, events) && n < |events| && Waiting(states[n], job)
    ensures events[n] != SettleJob(job) ==> Waiting(states[n + 1], job)
    ensures !Sends(events[n], job)
  {
    InvAt(states, events, n);
    assert Can(states[n], events[n]);
    if events[n] != SettleJob(job) {
      WaitingStays(states[n], events[n], job);
    }
  }

  /** No list of the agent's settles the job from `m` up to `n`. */
  predicate Unsettled(events: seq<Event>, m: nat, n: nat, job: int)
    requires n <= |events|
  {
    forall i :: m <= i < n ==> events[i] != SettleJob(job)
  }

  lemma {:induction false} WaitsUntilSettled(states: seq<System>, events: seq<Event>, m: nat, n: nat, job: int)
    requires IsRun(states, events) && m <= n < |states| && Waiting(states[m], job) && Unsettled(events, m, n, job)
    ensures Waiting(states[n], job)
  {
    if m < n {
      assert Unsettled(events, m, n - 1, job);
      WaitsUntilSettled(states, events, m, n - 1, job);
      WaitGoesOn(states, events, n - 1, job);
    }
  }

  /**
   * Whatever but a dispatch takes a job off the queue, the job waits from then on: until a list of
   * the agent's settles it, nobody runs it, it is not dispatched, and no command for it is read.
   */
  lemma {:induction false} UndispatchedJobWaits(states: seq<System>, events: seq<Event>, m: nat, n: nat, job: int)
    requires IsRun(states, events) && m < n < |events| && TakenOffQueue(states[m], events[m], job)
    requires Unsettled(events, m + 1, n, job)
    ensures Waiting(states[n], job) && !Sends(events[n], job)
  {
    WaitBegins(states, events, m, job);
    WaitsUntilSettled(states, events, m + 1, n, job);
    WaitGoesOn(states, events, n, job);
  }
}
