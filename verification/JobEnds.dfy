/**
 * What a terminal report means for the composed protocol: it ends the job when the server commits
 * it, whether or not the agent hears of it.
 */
module JobEnds {
  import opened Wrappers
  import opened JobRows
  import opened JobProtocol
  import opened ProtocolRuns
  import JobRaces
  import AM = AgentModel

  /** The job is final, and no command for it can be read. */
  predicate Over(s: System, job: int) {
    job in s.jobs && Final(s.jobs[job].rows.job.status) && Live(s, job) == 0
  }

  lemma {:induction false} FinalStays(s: System, e: Event, job: int)
    requires Can(s, e) && job in s.jobs && Final(s.jobs[job].rows.job.status)
    ensures job in Next(s, e).jobs && Final(Next(s, e).jobs[job].rows.job.status)
  {
    var r := s.jobs[job].rows;
    if (e.Transact? || e.Deliver?) && e.job == job {
      JobRaces.FinalIsFrozen(e.txn, r);
    } else if e == SettleJob(job) {
      var p := PresenceOf(s.handling, job);
      JobRaces.FinalIsFrozen(Requeue(s.handling.copies[job], p, p.now), r);
    }
  }

  lemma {:induction false} NothingLiveStays(s: System, e: Event, job: int)
    requires Inv(s) && Can(s, e) && Over(s, job)
    ensures job in Next(s, e).jobs && Live(Next(s, e), job) == 0
  {
    assert JobOk(s, job);
    assert e.Reconnect? ==> s.session + 1 !in s.jobs[job].commands;
  }

  lemma {:induction false} OverStays(s: System, e: Event, job: int)
    requires Inv(s) && Can(s, e) && Over(s, job)
    ensures Over(Next(s, e), job) && !Sends(e, job)
  {
    FinalStays(s, e, job);
    NothingLiveStays(s, e, job);
  }

  /** The server commits a terminal report: with the answer that settles the kept outcome, or without.
      Its handler did not load a final job, or there is one. */
  predicate Commits(s: System, e: Event, job: int) {
    && (e.Transact? || e.Deliver?) && e.job == job && Can(s, e) && JobRaces.IsTerminalReport(e.txn)
    && (Final(CopyOf(e.txn).value.status) ==> Final(s.jobs[job].rows.job.status))
  }

  /** Whoever reports, the commit leaves the job final, and the commands under way as they are. */
  lemma {:induction false} CommitEndsJob(s: System, e: Event, job: int)
    requires Commits(s, e, job)
    ensures job in Next(s, e).jobs && Final(Next(s, e).jobs[job].rows.job.status)
    ensures Live(Next(s, e), job) == Live(s, job)
  {
    if Final(s.jobs[job].rows.job.status) {
      JobRaces.FinalIsFrozen(e.txn, s.jobs[job].rows);
    }
  }

  lemma {:induction false} OverAt(states: seq<System>, events: seq<Event>, m: nat, n: nat, job: int)
    requires IsRun(states, events) && m <= n < |states| && Over(states[m], job)
    ensures Over(states[n], job)
  {
    if m < n {
      OverAt(states, events, m, n - 1, job);
      OverGoesOn(states, events, n - 1, job);
    }
  }

  lemma {:induction false} OverGoesOn(states: seq<System>, events: seq<Event>, n: nat, job: int)
    requires IsRun(states, events) && n < |events| && Over(states[n], job)
    ensures Over(states[n + 1], job) && !Sends(events[n], job)
  {
    InvAt(states, events, n);
    assert Can(states[n], events[n]);
    OverStays(states[n], events[n], job);
  }

  /** Once the server has committed a terminal report while the agent holds the job, answered or
      not, the job is final for good: it is not dispatched again, and no command for it is read, in
      any continuation. */
  lemma {:induction false} CommittedReportEndsJob(states: seq<System>, events: seq<Event>, m: nat, n: nat, job: int)
    requires IsRun(states, events) && m < n < |events| && Commits(states[m], events[m], job)
    requires AM.Held(states[m].agent, job)
    ensures Over(states[n], job) && !Sends(events[n], job)
  {
    InvAt(states, events, m);
    assert JobOk(states[m], job) && states[m + 1] == Next(states[m], events[m]);
    CommitEndsJob(states[m], events[m], job);
    OverAt(states, events, m + 1, n, job);
    OverGoesOn(states, events, n, job);
  }

  /** In particular once it has accepted the report of a run. */
  lemma {:induction false} AcceptedReportEndsJob(states: seq<System>, events: seq<Event>, m: nat, n: nat,
                                                 job: int, t: Txn)
    requires IsRun(states, events) && m < n < |events| && events[m] == Deliver(job, t)
    requires job in states[m].agent.kept && states[m].agent.kept[job] == AM.OfRun
    ensures job !in states[m + 1].agent.kept && Over(states[n], job) && !Sends(events[n], job)
  {
    InvAt(states, events, m);
    assert Can(states[m], events[m]) && states[m + 1] == Next(states[m], events[m]);
    assert JobOk(states[m], job) && AM.JobInv(states[m].agent, job);
    CommittedReportEndsJob(states, events, m, n, job);
  }

  // ---- Reports on a job the agent does not hold

  /** Some continuation reads a command for the job. */
  ghost predicate CanReadLater(s: System, job: int) {
    exists events: seq<Event> :: After(s, events).Some? && Can(After(s, events).value, ReadCommand(job, false))
  }

  lemma {:induction false} OverIsNotRead(s: System, events: seq<Event>, job: int)
    requires Inv(s) && Over(s, job) && After(s, events).Some?
    ensures !Can(After(s, events).value, ReadCommand(job, false))
    decreases |events|
  {
    if events != [] {
      StepKeepsInv(s, events[0]);
      OverStays(s, events[0], job);
      OverIsNotRead(Next(s, events[0]), events[1..], job);
    }
  }

  lemma {:induction false} LiveCanBeRead(s: System, job: int)
    requires Inv(s) && job in s.jobs && Live(s, job) > 0
    ensures CanReadLater(s, job)
  {
    assert JobOk(s, job);
    assert s.session in s.jobs[job].commands;
    if s.stage == Open {
      assert After(s, []) == Some(s);
    } else {
      var u := Next(s, SendList);
      assert [SendList][1..] == [] && After(u, []) == Some(u);
      assert After(s, [SendList]) == Some(u);
    }
  }

  /** Whoever reports, a refused worker and a cancel command included: after the commit a command for
      the job can still be read if and only if one was under way on the live session. */
  lemma {:induction false} ReadAfterCommitExactly(s: System, e: Event, job: int)
    requires Inv(s) && Commits(s, e, job)
    ensures CanReadLater(Next(s, e), job) <==> Live(s, job) > 0
  {
    var u := Next(s, e);
    StepKeepsInv(s, e);
    CommitEndsJob(s, e, job);
    if Live(s, job) > 0 {
      LiveCanBeRead(u, job);
    } else {
      forall events: seq<Event> | After(u, events).Some?
        ensures !Can(After(u, events).value, ReadCommand(job, false))
      {
        OverIsNotRead(u, events, job);
      }
    }
  }

  // ---- Such a run

  /** The job is unfinished, and the agent has come to the given phase with it. */
  predicate Reached(s: System, job: int, phase: AM.Phase) {
    && job in s.jobs && s.jobs[job].rows.job.status == Claimed
    && s.agent.reg.upgradingUntil.None? && AM.WorkOf(s.agent, job).phase == phase
  }

  lemma {:induction false} LostJobIsReceived(timing: Timing, job: int, payload: Payload)
          returns (states: seq<System>, events: seq<Event>)
    requires !payload.requestScoped
    ensures IsTimedRun(timing, states, events) && |events| == 15
    ensures events[11] == SettleJob(job) && events[14] == ReadCommand(job, false)
    ensures Reached(states[15], job, AM.Registered)
  {
    states, events := LostJobIsRequeued(timing, job, payload);
    states, events := Continue(timing, states, events, Dispatch(job));
    states, events := Continue(timing, states, events, ReadCommand(job, false));
  }

  lemma {:induction false} ReceivedJobIsReported(timing: Timing, before: seq<System>, past: seq<Event>, job: int)
          returns (states: seq<System>, events: seq<Event>)
    requires IsTimedRun(timing, before, past) && Reached(before[|past|], job, AM.Registered)
    ensures IsTimedRun(timing, states, events) && past <= events && |events| == |past| + 3
    ensures Reached(states[|events|], job, AM.Reported)
    ensures job in states[|events|].agent.kept && states[|events|].agent.kept[job] == AM.OfRun
  {
    states, events := Continue(timing, before, past, AgentStep(AM.Accept(job)));
    states, events := Continue(timing, states, events, AgentStep(AM.Start(job)));
    states, events := Continue(timing, states, events, AgentStep(AM.Report(job)));
  }

  lemma {:induction false} ReportIsAccepted(timing: Timing, before: seq<System>, past: seq<Event>, job: int)
          returns (states: seq<System>, events: seq<Event>, t: Txn)
    requires IsTimedRun(timing, before, past) && Reached(before[|past|], job, AM.Reported)
    requires job in before[|past|].agent.kept
    ensures IsTimedRun(timing, states, events) && before <= states && past <= events && |events| == |past| + 1
    ensures events[|past|] == Deliver(job, t)
    ensures var s := states[|events|];
            job in s.jobs && s.jobs[job].rows.job.status == Completed && job !in s.agent.kept
  {
    var s := before[|past|];
    t := Complete(s.jobs[job].rows.job, Code(0), false, None, s.now);
    states, events := Continue(timing, before, past, Deliver(job, t));
  }

  /** A job's whole life: its first command is lost, it is requeued, dispatched again, received,
      accepted, run and reported, and the server accepts the report. */
  lemma {:induction false} LostJobIsCompleted(timing: Timing, job: int, payload: Payload)
          returns (states: seq<System>, events: seq<Event>, t: Txn)
    requires !payload.requestScoped
    ensures IsTimedRun(timing, states, events) && |events| == 19
    ensures events[11] == SettleJob(job) && events[14] == ReadCommand(job, false) && events[18] == Deliver(job, t)
    ensures job in states[18].agent.kept && states[18].agent.kept[job] == AM.OfRun
    ensures job in states[19].jobs && states[19].jobs[job].rows.job.status == Completed
    ensures job !in states[19].agent.kept
  {
    states, events := LostJobIsReceived(timing, job, payload);
    states, events := ReceivedJobIsReported(timing, states, events, job);
    states, events, t := ReportIsAccepted(timing, states, events, job);
  }
}
