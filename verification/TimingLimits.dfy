/**
 * For which delivery and transit times the protocol keeps its promises: exactly for those that
 * together stay below the window after which a heartbeat requeues a job it misses. Without
 * heartbeats, for any.
 */
module TimingLimits {
  import opened Wrappers
  import opened JobRows
  import opened JobProtocol
  import opened ProtocolRuns
  import AM = AgentModel

  /** A list of the agent's puts the job back on the queue. */
  predicate Requeues(s: System, e: Event) {
    e.SettleJob? && Can(s, e) && Next(s, e).jobs[e.job].rows.job.status == Queued
  }

  predicate Holds(s: System, job: int) {
    AM.Held(s.agent, job) || job in s.agent.reg.events
  }

  /** No run on the link requeues a job that the agent holds. */
  ghost predicate RequeuesOnlyIdle(timing: Timing) {
    forall states: seq<System>, events: seq<Event>, n: nat ::
      IsTimedRun(timing, states, events) && n < |events| && Requeues(states[n], events[n]) ==>
        !Holds(states[n], events[n].job)
  }

  /** In no run on the link does the agent read a command for a job that it holds. */
  ghost predicate NeverRunsTwice(timing: Timing) {
    forall states: seq<System>, events: seq<Event>, n: nat ::
      IsTimedRun(timing, states, events) && n < |events| && events[n].ReadCommand? ==>
        !Holds(states[n], events[n].job)
  }

  // ---- The runs on a link that is too slow

  /** The command is read at the last moment, just after a heartbeat was sent that misses the job. */
  lemma {:induction false} CommandIsReadLate(timing: Timing, job: int, payload: Payload)
          returns (states: seq<System>, events: seq<Event>)
    ensures IsTimedRun(timing, states, events) && |events| == 10
    ensures var s := states[10];
            && s.timing == timing && s.now == timing.delivery && s.stage == Open && s.session == 1
            && s.handling.Resting? && s.connected == Some(1) && s.beats == {List(1, {}, timing.delivery)}
            && Row(s, job, payload, Claimed) && s.jobs[job].rows.job.updatedAt == 0
            && s.jobs[job].commands == multiset{} && Holds(s, job)
  {
    states, events := FirstSession(timing, job, payload);
    states, events := Continue(timing, states, events, Dispatch(job));
    assert states[6].jobs[job].commands == multiset{1};
    states, events := Continue(timing, states, events, Pass(timing.delivery));
    assert states[7].agent.reg.events.Keys == {} && {} + states[7].agent.kept.Keys == {};
    states, events := Continue(timing, states, events, ReadRegistry);
    states, events := Continue(timing, states, events, SendList);
    states, events := Continue(timing, states, events, ReadCommand(job, false));
  }

  /** The heartbeat is handled at the last moment, when the row has been silent for the window. */
  lemma {:induction false} HeldJobIsLoaded(timing: Timing, job: int, payload: Payload)
          returns (states: seq<System>, events: seq<Event>)
    requires !FitsWindow(timing)
    ensures IsTimedRun(timing, states, events) && |events| == 12
    ensures var s := states[12];
            && s.stage == Open && s.session == 1 && s.connected == Some(1)
            && Row(s, job, payload, Claimed) && s.jobs[job].commands == multiset{} && Holds(s, job)
            && s.handling.Handling? && !s.handling.atHello && s.handling.copies == map[job := s.jobs[job].rows.job]
            && Decide(s.jobs[job].rows.job, PresenceOf(s.handling, job)) == (if payload.requestScoped
                then FailScoped else PutBack)
  {
    states, events := CommandIsReadLate(timing, job, payload);
    states, events := Continue(timing, states, events, Pass(timing.transit.value));
    states, events := Continue(timing, states, events, LoadBeat(List(1, {}, timing.delivery)));
  }

  lemma {:induction false} HeldJobIsRequeued(timing: Timing, job: int, payload: Payload)
          returns (states: seq<System>, events: seq<Event>)
    requires !FitsWindow(timing) && !payload.requestScoped
    ensures IsTimedRun(timing, states, events) && |events| == 14
    ensures Requeues(states[12], events[12]) && events[12].job == job && Holds(states[12], job)
    ensures var s := states[14];
            && s.stage == Open && s.session == 1 && s.connected == Some(1)
            && Row(s, job, payload, Queued) && s.jobs[job].commands == multiset{} && Holds(s, job)
  {
    states, events := HeldJobIsLoaded(timing, job, payload);
    states, events := Continue(timing, states, events, SettleJob(job));
    states, events := Continue(timing, states, events, FinishList);
  }

  /** On a link whose delivery and transit reach the window, a job is requeued while its worker is
      registered, and its command is read a second time. */
  lemma {:induction false} HeldJobIsReadAgain(timing: Timing, job: int, payload: Payload)
          returns (states: seq<System>, events: seq<Event>)
    requires !FitsWindow(timing) && !payload.requestScoped
    ensures IsTimedRun(timing, states, events) && |events| == 16
    ensures Requeues(states[12], events[12]) && events[12].job == job && Holds(states[12], job)
    ensures events[15] == ReadCommand(job, false) && Holds(states[15], job)
  {
    states, events := HeldJobIsRequeued(timing, job, payload);
    states, events := Continue(timing, states, events, Dispatch(job));
    assert states[15].jobs[job].commands == multiset{1};
    states, events := Continue(timing, states, events, ReadCommand(job, false));
  }

  // ---- Both halves

  lemma {:induction false} FittingLinkIsSafe(timing: Timing)
    requires FitsWindow(timing)
    ensures RequeuesOnlyIdle(timing) && NeverRunsTwice(timing)
  {
    forall states: seq<System>, events: seq<Event>, n: nat | IsTimedRun(timing, states, events) && n < |events|
      ensures Requeues(states[n], events[n]) ==> !Holds(states[n], events[n].job)
      ensures events[n].ReadCommand? ==> !Holds(states[n], events[n].job)
    {
      assert IsRun(states, events);
      if Requeues(states[n], events[n]) {
        RequeuedJobIsIdle(states, events, n);
      } else if events[n].ReadCommand? {
        NoDoubleRun(states, events, n);
      }
    }
  }

  /**
   * On every link: no run requeues a job that the agent holds if and only if delivery and transit
   * together stay below the window, and no job is run twice if and only if they do. A link on which
   * no heartbeat is handled may deliver commands as late as it likes.
   */
  lemma {:induction false} SafeExactlyBelowWindow(timing: Timing)
    ensures RequeuesOnlyIdle(timing) <==> FitsWindow(timing)
    ensures NeverRunsTwice(timing) <==> FitsWindow(timing)
  {
    if FitsWindow(timing) {
      FittingLinkIsSafe(timing);
    } else {
      var states, events := HeldJobIsReadAgain(timing, 0, Payload(false, false, false, NoLink));
      assert Requeues(states[12], events[12]) && events[15].ReadCommand?;
    }
  }

  // ---- Runs without heartbeats

  /** The same state on a link on which no heartbeat is handled. */
  function WithoutBeats(s: System): System {
    s.(timing := s.timing.(transit := None))
  }

  lemma {:induction false} StepWithoutBeats(s: System, e: Event)
    requires Can(s, e) && !e.LoadBeat?
    ensures Can(WithoutBeats(s), e) && Next(WithoutBeats(s), e) == WithoutBeats(Next(s, e))
  {
    if e.Pass? {
      assert forall job :: job in s.jobs ==> Live(WithoutBeats(s), job) == Live(s, job);
    }
  }

  lemma {:induction false} RunWithoutBeats(timing: Timing, states: seq<System>, events: seq<Event>)
          returns (same: seq<System>)
    requires IsTimedRun(timing, states, events) && forall i :: 0 <= i < |events| ==> !events[i].LoadBeat?
    ensures IsRun(same, events) && |same| == |states|
    ensures forall i :: 0 <= i < |states| ==> same[i] == WithoutBeats(states[i])
  {
    same := seq(|states|, i requires 0 <= i < |states| => WithoutBeats(states[i]));
    forall i | 0 <= i < |events| ensures Can(same[i], events[i]) && same[i + 1] == Next(same[i], events[i]) {
      StepWithoutBeats(states[i], events[i]);
    }
    assert IsTimedRun(same[0].timing, same, events);
  }

  lemma {:induction false} EarlierPart(timing: Timing, states: seq<System>, events: seq<Event>, n: nat)
    requires IsTimedRun(timing, states, events) && n <= |events|
    ensures IsTimedRun(timing, states[..n + 1], events[..n])
  {
    forall i | 0 <= i < n
      ensures Can(states[..n + 1][i], events[..n][i])
      ensures states[..n + 1][i + 1] == Next(states[..n + 1][i], events[..n][i])
    {
      assert Can(states[i], events[i]);
    }
  }

  /** The hello's half of the protocol needs no bound at all: on any link, as long as no heartbeat has
      been handled, what a list requeues the agent does not hold, and no job is run twice. */
  lemma {:induction false} HellosNeedNoBound(timing: Timing, states: seq<System>, events: seq<Event>, n: nat)
    requires IsTimedRun(timing, states, events) && n < |events|
    requires forall i :: 0 <= i <= n ==> !events[i].LoadBeat?
    ensures Requeues(states[n], events[n]) || events[n].ReadCommand? ==> !Holds(states[n], events[n].job)
  {
    EarlierPart(timing, states, events, n + 1);
    var same := RunWithoutBeats(timing, states[..n + 2], events[..n + 1]);
    assert same[n] == WithoutBeats(states[n]);
    FittingLinkIsSafe(same[0].timing);
    if Requeues(states[n], events[n]) {
      StepWithoutBeats(states[n], events[n]);
      assert Requeues(same[n], events[..n + 1][n]);
    }
  }
}
