/**
 * The job protocol between the server and one agent process that has one session at a time: job
 * rows, commands and cancels on their way, the lists of running jobs in hellos and heartbeats, and
 * everything the agent does on its own, interleaved in any order.
 *
 * The network and the clock are constrained as follows, and in no other way. Hellos are handled
 * in the order in which the sessions were opened. A session's frames are lost once the agent has
 * left it. On the live session a command is read within the delivery time of its dispatch, and a
 * heartbeat is handled within the transit time of being sent or not at all. A hello may take any
 * time. The two times are parameters; TimingLimits says for which of them the protocol works.
 */
module JobProtocol {
  import opened Wrappers
  import opened JobRows
  import JobRaces
  import AM = AgentModel

  /** The longest a command takes from its dispatch to its being read, and a heartbeat from being
      sent to being handled; None for a link on which no heartbeat is handled. */
  datatype Timing = Timing(delivery: nat, transit: Option<nat>)

  /** Both together stay below the window after which a heartbeat requeues a job it misses. */
  predicate FitsWindow(t: Timing) {
    t.transit.Some? ==> t.delivery + t.transit.value < STALE_AGENT_JOB_REQUEUE_AFTER
  }

  /** The jobs a hello or heartbeat of a session lists. */
  datatype List = List(session: nat, ids: set<int>, takenAt: int)

  /** How far the agent's session thread has come: connecting, between the two reads that make up
      the hello's list, reading frames, or between the two reads of a heartbeat's list. */
  datatype Stage = Connecting | HelloListing(registered: set<int>) | Open | BeatListing(registered: set<int>)

  /** The server at work on a list: the jobs as its query loaded them, less those dealt with. */
  datatype Handling = Resting | Handling(list: List, atHello: bool, complete: bool, since: int,
      copies: map<int, JobRow>)

  /** A job's rows; by session, its commands and cancels under way; the cancel threads that have
      not signalled yet; when it was last dispatched and last received. */
  datatype Job = Job(rows: Rows, commands: multiset<nat>, cancels: multiset<nat>, cancelThreads: nat, sentAt: int,
      receivedAt: int)

  datatype System = System(
    timing: Timing, now: int,
    agent: AM.Agent, session: nat, stage: Stage,
    hellos: seq<List>, beats: set<List>,
    connected: Option<nat>, greeted: nat, handling: Handling,
    jobs: map<int, Job>)

  function Initial(timing: Timing): System {
    System(timing, 0, AM.STARTED, 1, Connecting, [], {}, None, 0, Resting, map[])
  }

  datatype Event =
    | Create(job: int, payload: Payload)
    | Transact(job: int, txn: Txn)
    | Dispatch(job: int)
    | SendCancel(job: int)
    | ReadCommand(job: int, selfCancelling: bool)
    | ReadCancel(job: int)
    | HandleCancel(job: int)
    | AgentStep(step: AM.Step)
    | Deliver(job: int, txn: Txn)
    | Reconnect
    | ReadRegistry
    | SendList
    | LoadHello
    | LoadBeat(beat: List)
    | SettleJob(job: int)
    | FinishList
    | Disconnect
    | Pass(dt: int)

  function Live(s: System, job: int): nat
    requires job in s.jobs
  {
    s.jobs[job].commands[s.session]
  }

  /** The job is dispatched, or a command for it is read. */
  predicate Sends(e: Event, job: int) {
    e == Dispatch(job) || (e.ReadCommand? && e.job == job)
  }

  /** A heartbeat can still be handled. */
  predicate InTime(s: System, beat: List) {
    s.timing.transit.Some? && s.now <= beat.takenAt + s.timing.transit.value
  }

  /** The time at which a transaction writes. */
  function TxnTime(t: Txn): int {
    match t
    case Ack(now) => now
    case Start(_, _, now) => now
    case Progress(_, now) => now
    case Complete(_, _, _, _, now) => now
    case Fail(_, _, _, _, _, now) => now
    case Cancel(_, _, now) => now
    case Requeue(_, _, now) => now
    case Reap(_, now) => now
    case Claim(now) => now
    case AskCancel(now) => now
    case Abandon(now) => now
    case Touch(now) => now
  }

  function PresenceOf(h: Handling, job: int): Presence
    requires h.Handling?
  {
    Presence(job in h.list.ids, h.atHello, h.complete, h.since)
  }

  /** A delivery is a report's transaction whose acceptance settles the kept outcome; the copy a
      handler loads is final only if the job is. Settling by another answer is an agent's step. */
  predicate Can(s: System, e: Event) {
    match e
    case Create(job, _) => job !in s.jobs
    case Transact(job, t) => job in s.jobs && !t.Requeue? && !t.Claim? && TxnTime(t) == s.now
        && JobRaces.Fits(t, s.jobs[job].rows)
    case Dispatch(job) => job in s.jobs && s.connected.Some? && s.jobs[job].rows.job.status == Queued
    case SendCancel(job) => job in s.jobs && s.connected.Some? && s.jobs[job].rows.job.status == CancelRequested
    case ReadCommand(job, _) => job in s.jobs && s.stage == Open && Live(s, job) > 0
    case ReadCancel(job) => job in s.jobs && s.stage == Open && s.jobs[job].cancels[s.session] > 0
    case HandleCancel(job) => job in s.jobs && s.jobs[job].cancelThreads > 0
    case AgentStep(step) => !step.Receive? && !step.SignalCancel? && AM.Can(s.agent, step)
    case Deliver(job, t) =>
      && job in s.jobs && JobRaces.IsTerminalReport(t) && TxnTime(t) == s.now && JobRaces.Fits(t, s.jobs[job].rows)
      && job in s.agent.kept && (Final(CopyOf(t).value.status) ==> Final(s.jobs[job].rows.job.status))
    case Reconnect => true
    case ReadRegistry => s.stage == Connecting || s.stage == Open
    case SendList => s.stage.HelloListing? || s.stage.BeatListing?
    case LoadHello => s.handling.Resting? && s.hellos != []
    case LoadBeat(beat) => s.handling.Resting? && beat in s.beats && s.connected == Some(beat.session)
        && InTime(s, beat)
    case SettleJob(job) => s.handling.Handling? && job in s.handling.copies && job in s.jobs
    case FinishList => s.handling.Handling?
    case Disconnect => true
    case Pass(dt) =>
      && dt >= 0
      && forall job :: job in s.jobs && Live(s, job) > 0 ==> s.now + dt <= s.jobs[job].sentAt + s.timing.delivery
  }

  function Loaded(s: System): map<int, JobRow> {
    map job | job in s.jobs && InFlight(s.jobs[job].rows.job.status) :: s.jobs[job].rows.job
  }

  function Next(s: System, e: Event): System
    requires Can(s, e)
  {
    match e
    case Create(job, payload) =>
      var row := JobRow(payload, Queued, None, None, None, s.now, None, NoResult, NoError);
      s.(jobs := s.jobs[job := Job(Rows(row, OpRow(OpQueued, None, None, 0)), multiset{}, multiset{}, 0, s.now, s.now)])
    case Transact(job, t) => s.(jobs := s.jobs[job := s.jobs[job].(rows := Apply(t, s.jobs[job].rows).rows)])
    case Dispatch(job) =>
      var j := s.jobs[job];
      s.(jobs := s.jobs[job := j.(rows := ClaimJob(s.now, j.rows).rows,
          commands := j.commands + multiset{s.connected.value}, sentAt := s.now)])
    case SendCancel(job) =>
      s.(jobs := s.jobs[job := s.jobs[job].(cancels := s.jobs[job].cancels + multiset{s.connected.value})])
    case ReadCommand(job, selfCancelling) =>
      var j := s.jobs[job];
      s.(agent := AM.Next(s.agent, AM.Receive(job, selfCancelling)),
         jobs := s.jobs[job := j.(commands := j.commands - multiset{s.session}, receivedAt := s.now)])
    case ReadCancel(job) =>
      var j := s.jobs[job];
      s.(jobs := s.jobs[job := j.(cancels := j.cancels - multiset{s.session}, cancelThreads := j.cancelThreads + 1)])
    case HandleCancel(job) =>
      var j := s.jobs[job];
      s.(agent := AM.Next(s.agent, AM.SignalCancel(job)),
          jobs := s.jobs[job := j.(cancelThreads := j.cancelThreads - 1)])
    case AgentStep(step) => s.(agent := AM.Next(s.agent, step))
    case Deliver(job, t) =>
      s.(agent := AM.Next(s.agent, AM.Settle(job)),
         jobs := s.jobs[job := s.jobs[job].(rows := Apply(t, s.jobs[job].rows).rows)])
    case Reconnect => s.(session := s.session + 1, stage := Connecting)
    case ReadRegistry =>
      var registered := s.agent.reg.events.Keys;
      s.(stage := if s.stage == Connecting then HelloListing(registered) else BeatListing(registered))
    case SendList =>
      var list := List(s.session, s.stage.registered + s.agent.kept.Keys, s.now);
      if s.stage.HelloListing? then s.(stage := Open, hellos := s.hellos + [list])
      else s.(stage := Open, beats := s.beats + {list})
    case LoadHello =>
      s.(hellos := s.hellos[1..], handling := Handling(s.hellos[0], true, s.connected.None?, s.now, Loaded(s)))
    case LoadBeat(beat) =>
      s.(beats := s.beats - {beat}, handling := Handling(beat, false, false, s.now, Loaded(s)))
    case SettleJob(job) =>
      var j := s.jobs[job];
      s.(handling := s.handling.(copies := s.handling.copies - {job}),
         jobs := s.jobs[job := j.(rows := RequeueJob(s.handling.copies[job], PresenceOf(s.handling, job),
             j.rows).rows)])
    case FinishList =>
      if s.handling.atHello then s.(handling := Resting, connected := Some(s.handling.list.session),
          greeted := s.handling.list.session)
      else s.(handling := Resting)
    case Disconnect => s.(connected := None)
    case Pass(dt) => s.(now := s.now + dt)
  }

  // ---- Invariant

  /** The sessions: what is connected has been greeted, and every hello still to be handled opens
      a session no command has been sent on. */
  predicate SessionsOk(s: System) {
    && s.greeted <= s.session
    && (s.connected.Some? ==> s.connected.value <= s.greeted)
    && (forall i :: 0 <= i < |s.hellos| ==> s.greeted < s.hellos[i].session <= s.session)
    && (forall i, j :: 0 <= i < j < |s.hellos| ==> s.hellos[i].session < s.hellos[j].session)
    && (s.handling.Handling? && s.handling.atHello ==>
          && s.greeted < s.handling.list.session <= s.session
          && forall i :: 0 <= i < |s.hellos| ==> s.handling.list.session < s.hellos[i].session)
    && (s.stage == Connecting || s.stage.HelloListing? ==>
          && s.greeted < s.session
          && (forall i :: 0 <= i < |s.hellos| ==> s.hellos[i].session < s.session)
          && (s.handling.Handling? && s.handling.atHello ==> s.handling.list.session < s.session))
    && (forall beat :: beat in s.beats ==> beat.takenAt <= s.now && beat.session <= s.session)
    && (s.stage == Connecting || s.stage.HelloListing? ==> forall beat :: beat in s.beats ==> beat.session < s.session)
    && (s.handling.Handling? ==> s.handling.since <= s.now && s.handling.copies.Keys <= s.jobs.Keys)
  }

  predicate Idle(s: System, job: int)
    requires job in s.jobs
  {
    !AM.Held(s.agent, job) && Live(s, job) == 0
  }

  /** At most one copy of the command can still be read, and only of a job nobody holds; a queued
      job is idle; commands went to greeted sessions only. */
  predicate SingleOk(s: System, job: int)
    requires job in s.jobs
  {
    && !AM.WorkOf(s.agent, job).overlapped
    && Live(s, job) <= 1
    && (Live(s, job) > 0 ==> !AM.Held(s.agent, job))
    && (s.jobs[job].rows.job.status == Queued ==> Idle(s, job))
    && forall e :: e in s.jobs[job].commands ==> e <= s.greeted
  }

  /** A list that misses the job was taken when the agent did not hold it, or (a heartbeat's)
      before the agent received it. */
  predicate ListsOk(s: System, job: int)
    requires job in s.jobs
  {
    && (forall i :: 0 <= i < |s.hellos| ==> job in s.hellos[i].ids || !AM.Held(s.agent, job))
    && (s.handling.Handling? && s.handling.atHello ==> job in s.handling.list.ids || !AM.Held(s.agent, job))
    && (s.stage.HelloListing? || s.stage.BeatListing? ==>
          job in s.stage.registered || AM.WorkOf(s.agent, job).phase == AM.Absent)
    && (forall beat :: beat in s.beats ==>
          job in beat.ids || !AM.Held(s.agent, job) || beat.takenAt <= s.jobs[job].receivedAt)
  }

  /** The row remembers the last dispatch: a job that is held, or about to be, is recent enough. */
  predicate TimesOk(s: System, job: int)
    requires job in s.jobs
  {
    var j := s.jobs[job];
    && j.sentAt <= j.rows.job.updatedAt <= s.now
    && (AM.Held(s.agent, job) ==> j.receivedAt <= j.sentAt + s.timing.delivery)
    && (Live(s, job) > 0 ==> s.now <= j.sentAt + s.timing.delivery)
  }

  /** A job loaded for the list at hand is in flight; if it is about to be settled, it is idle. */
  predicate HandlingOk(s: System, job: int)
    requires job in s.jobs
  {
    s.handling.Handling? && job in s.handling.copies ==>
      && s.jobs[job].rows.job.status != Queued
      && s.jobs[job].sentAt <= s.handling.since
      && s.handling.copies[job].payload == s.jobs[job].rows.job.payload
      && (Decide(s.handling.copies[job], PresenceOf(s.handling, job)) != Skip ==> Idle(s, job))
  }

  /** A cancel on its way or at work belongs to a job whose cancel is requested or over. */
  predicate CancelOk(s: System, job: int)
    requires job in s.jobs
  {
    var j := s.jobs[job];
    j.cancels != multiset{} || j.cancelThreads > 0 || AM.CancelTrace(s.agent, job)
    ==> j.rows.job.status == CancelRequested || Final(j.rows.job.status)
  }

  predicate JobOk(s: System, job: int)
    requires job in s.jobs
  {
    SingleOk(s, job) && ListsOk(s, job) && TimesOk(s, job) && HandlingOk(s, job) && CancelOk(s, job)
  }

  /** The agent knows nothing of a job the server has not created. */
  ghost predicate StrangersOk(s: System) {
    forall job: int :: job !in s.jobs ==> AM.WorkOf(s.agent, job) == AM.NO_WORK && job !in s.agent.kept
  }

  ghost predicate Inv(s: System) {
    && FitsWindow(s.timing)
    && AM.Inv(s.agent)
    && SessionsOk(s)
    && StrangersOk(s)
    && forall job :: job in s.jobs ==> JobOk(s, job)
  }

  // ---- Every step keeps the invariant

  /** A transaction other than a claim or a requeue never queues a job, never reopens a final or
      cancelled one, and stamps the row with the time it writes. */
  lemma {:induction false} TransactionsBehave(t: Txn, r: Rows)
    requires !t.Requeue? && !t.Claim? && JobRaces.Fits(t, r)
    ensures var job := Apply(t, r).rows.job;
            && job.payload == r.job.payload
            && (job.updatedAt == r.job.updatedAt || job.updatedAt == TxnTime(t))
            && (r.job.status != Queued ==> job.status != Queued)
            && (r.job.status == CancelRequested || Final(r.job.status) ==>
                  job.status == CancelRequested || Final(job.status))
  {
  }

  lemma {:induction false} TransactKeepsInv(s: System, job: int, t: Txn)
    requires Inv(s) && Can(s, Transact(job, t))
    ensures Inv(Next(s, Transact(job, t)))
  {
    TransactionsBehave(t, s.jobs[job].rows);
    var u := Next(s, Transact(job, t));
    forall k | k in u.jobs ensures JobOk(u, k) {
      assert JobOk(s, k);
    }
  }

  lemma {:induction false} CreateKeepsInv(s: System, job: int, payload: Payload)
    requires Inv(s) && Can(s, Create(job, payload))
    ensures Inv(Next(s, Create(job, payload)))
  {
    var u := Next(s, Create(job, payload));
    forall k | k in u.jobs ensures JobOk(u, k) {
      if k in s.jobs {
        assert JobOk(s, k);
      }
    }
  }

  lemma {:induction false} DispatchKeepsInv(s: System, job: int)
    requires Inv(s) && Can(s, Dispatch(job))
    ensures Inv(Next(s, Dispatch(job)))
  {
    var u := Next(s, Dispatch(job));
    forall k | k in u.jobs ensures JobOk(u, k) {
      assert JobOk(s, k);
    }
  }

  lemma {:induction false} SendCancelKeepsInv(s: System, job: int)
    requires Inv(s) && Can(s, SendCancel(job))
    ensures Inv(Next(s, SendCancel(job)))
  {
    var u := Next(s, SendCancel(job));
    forall k | k in u.jobs ensures JobOk(u, k) {
      assert JobOk(s, k);
    }
  }

  lemma {:induction false} ReadCommandKeepsInv(s: System, job: int, selfCancelling: bool)
    requires Inv(s) && Can(s, ReadCommand(job, selfCancelling))
    ensures Inv(Next(s, ReadCommand(job, selfCancelling)))
  {
    var u := Next(s, ReadCommand(job, selfCancelling));
    var step := AM.Receive(job, selfCancelling);
    AM.StepKeepsInv(s.agent, step);
    assert JobOk(s, job);
    assert s.session in s.jobs[job].commands;
    forall k | k in u.jobs ensures JobOk(u, k) {
      assert JobOk(s, k);
      if k != job {
        AM.OnlyCommandsAdd(s.agent, step, k);
      }
    }
  }

  lemma {:induction false} ReadCancelKeepsInv(s: System, job: int)
    requires Inv(s) && Can(s, ReadCancel(job))
    ensures Inv(Next(s, ReadCancel(job)))
  {
    var u := Next(s, ReadCancel(job));
    assert s.session in s.jobs[job].cancels;
    forall k | k in u.jobs ensures JobOk(u, k) {
      assert JobOk(s, k);
    }
  }

  lemma {:induction false} HandleCancelKeepsInv(s: System, job: int)
    requires Inv(s) && Can(s, HandleCancel(job))
    ensures Inv(Next(s, HandleCancel(job)))
  {
    var u := Next(s, HandleCancel(job));
    AM.StepKeepsInv(s.agent, AM.SignalCancel(job));
    forall k | k in u.jobs ensures JobOk(u, k) {
      assert JobOk(s, k);
      AM.OnlyCommandsAdd(s.agent, AM.SignalCancel(job), k);
    }
  }

  lemma {:induction false} AgentStepKeepsInv(s: System, step: AM.Step)
    requires Inv(s) && Can(s, AgentStep(step))
    ensures Inv(Next(s, AgentStep(step)))
  {
    var u := Next(s, AgentStep(step));
    AM.StepKeepsInv(s.agent, step);
    forall k | k in u.jobs ensures JobOk(u, k) {
      assert JobOk(s, k);
      AM.OnlyCommandsAdd(s.agent, step, k);
    }
    forall k: int | k !in u.jobs ensures AM.WorkOf(u.agent, k) == AM.NO_WORK && k !in u.agent.kept {
      assert AM.WorkOf(s.agent, k) == AM.NO_WORK && k !in s.agent.kept;
    }
  }

  /** A delivery is the report's transaction, and then the settling. */
  lemma {:induction false} DeliverIsTwoSteps(s: System, job: int, t: Txn)
    requires Can(s, Deliver(job, t))
    ensures Can(s, Transact(job, t)) && Can(Next(s, Transact(job, t)), AgentStep(AM.Settle(job)))
    ensures Next(s, Deliver(job, t)) == Next(Next(s, Transact(job, t)), AgentStep(AM.Settle(job)))
  {
  }

  lemma {:induction false} DeliverKeepsInv(s: System, job: int, t: Txn)
    requires Inv(s) && Can(s, Deliver(job, t))
    ensures Inv(Next(s, Deliver(job, t)))
  {
    DeliverIsTwoSteps(s, job, t);
    TransactKeepsInv(s, job, t);
    AgentStepKeepsInv(Next(s, Transact(job, t)), AM.Settle(job));
  }

  lemma {:induction false} ReconnectKeepsInv(s: System)
    requires Inv(s)
    ensures Inv(Next(s, Reconnect))
  {
    var u := Next(s, Reconnect);
    forall k | k in u.jobs ensures JobOk(u, k) {
      assert JobOk(s, k);
      assert s.session + 1 !in s.jobs[k].commands;
    }
  }

  lemma {:induction false} ReadRegistryKeepsInv(s: System)
    requires Inv(s) && Can(s, ReadRegistry)
    ensures Inv(Next(s, ReadRegistry))
  {
    var u := Next(s, ReadRegistry);
    forall k | k in u.jobs ensures JobOk(u, k) {
      assert JobOk(s, k) && AM.JobInv(s.agent, k);
    }
  }

  lemma {:induction false} SendListKeepsInv(s: System)
    requires Inv(s) && Can(s, SendList)
    ensures Inv(Next(s, SendList))
  {
    var u := Next(s, SendList);
    forall k | k in u.jobs ensures JobOk(u, k) {
      assert JobOk(s, k) && AM.JobInv(s.agent, k);
    }
  }

  lemma {:induction false} LoadHelloKeepsInv(s: System)
    requires Inv(s) && Can(s, LoadHello)
    ensures Inv(Next(s, LoadHello))
  {
    var u := Next(s, LoadHello);
    forall k | k in u.jobs ensures JobOk(u, k) {
      assert JobOk(s, k);
      assert s.session !in s.jobs[k].commands;
    }
  }

  /** A heartbeat's list settles nothing the agent holds: what it misses was received after it was
      taken, so dispatched within the window. */
  lemma {:induction false} LoadBeatKeepsInv(s: System, beat: List)
    requires Inv(s) && Can(s, LoadBeat(beat))
    ensures Inv(Next(s, LoadBeat(beat)))
  {
    var u := Next(s, LoadBeat(beat));
    forall k | k in u.jobs ensures JobOk(u, k) {
      assert JobOk(s, k);
    }
  }

  lemma {:induction false} SettleJobKeepsInv(s: System, job: int)
    requires Inv(s) && Can(s, SettleJob(job))
    ensures Inv(Next(s, SettleJob(job)))
  {
    var u := Next(s, SettleJob(job));
    forall k | k in u.jobs ensures JobOk(u, k) {
      assert JobOk(s, k);
    }
  }

  lemma {:induction false} FinishListKeepsInv(s: System)
    requires Inv(s) && Can(s, FinishList)
    ensures Inv(Next(s, FinishList))
  {
    var u := Next(s, FinishList);
    forall k | k in u.jobs ensures JobOk(u, k) {
      assert JobOk(s, k);
    }
  }

  lemma {:induction false} QuietStepKeepsInv(s: System, e: Event)
    requires Inv(s) && Can(s, e) && (e.Disconnect? || e.Pass?)
    ensures Inv(Next(s, e))
  {
    var u := Next(s, e);
    forall k | k in u.jobs ensures JobOk(u, k) {
      assert JobOk(s, k);
    }
  }

  lemma {:induction false} StepKeepsInv(s: System, e: Event)
    requires Inv(s) && Can(s, e)
    ensures Inv(Next(s, e))
  {
    match e {
      case Create(job, payload) => CreateKeepsInv(s, job, payload);
      case Transact(job, t) => TransactKeepsInv(s, job, t);
      case Dispatch(job) => DispatchKeepsInv(s, job);
      case SendCancel(job) => SendCancelKeepsInv(s, job);
      case ReadCommand(job, selfCancelling) => ReadCommandKeepsInv(s, job, selfCancelling);
      case ReadCancel(job) => ReadCancelKeepsInv(s, job);
      case HandleCancel(job) => HandleCancelKeepsInv(s, job);
      case AgentStep(step) => AgentStepKeepsInv(s, step);
      case Deliver(job, t) => DeliverKeepsInv(s, job, t);
      case Reconnect => ReconnectKeepsInv(s);
      case ReadRegistry => ReadRegistryKeepsInv(s);
      case SendList => SendListKeepsInv(s);
      case LoadHello => LoadHelloKeepsInv(s);
      case LoadBeat(beat) => LoadBeatKeepsInv(s, beat);
      case SettleJob(job) => SettleJobKeepsInv(s, job);
      case FinishList => FinishListKeepsInv(s);
      case Disconnect => QuietStepKeepsInv(s, e);
      case Pass(_) => QuietStepKeepsInv(s, e);
    }
  }

  // ---- Runs

  function After(s: System, events: seq<Event>): Option<System>
    decreases |events|
  {
    if events == [] then Some(s)
    else if !Can(s, events[0]) then None
    else After(Next(s, events[0]), events[1..])
  }

  /** A run on a link of any timing. */
  predicate IsTimedRun(timing: Timing, states: seq<System>, events: seq<Event>) {
    && |states| == |events| + 1
    && states[0] == Initial(timing)
    && forall i :: 0 <= i < |events| ==> Can(states[i], events[i]) && states[i + 1] == Next(states[i], events[i])
  }

  /** A run on a link whose times fit the window. */
  predicate IsRun(states: seq<System>, events: seq<Event>) {
    states != [] && FitsWindow(states[0].timing) && IsTimedRun(states[0].timing, states, events)
  }

  lemma {:induction false} InvAt(states: seq<System>, events: seq<Event>, n: nat)
    requires IsRun(states, events) && n < |states|
    ensures Inv(states[n])
  {
    if n == 0 {
      forall job: int ensures AM.JobInv(AM.STARTED, job) {
      }
    } else {
      InvAt(states, events, n - 1);
      StepKeepsInv(states[n - 1], events[n - 1]);
    }
  }

  predicate CancelStands(s: System, job: int) {
    job in s.jobs && (s.jobs[job].rows.job.status == CancelRequested || Final(s.jobs[job].rows.job.status))
  }

  predicate RefusedBefore(events: seq<Event>, n: nat, job: int)
    requires n <= |events|
  {
    exists i :: 0 <= i < n && events[i] == AgentStep(AM.Refuse(job))
  }

  /** What a refusal leaves behind was left by a refusal. */
  lemma {:induction false} RefusalHasCause(states: seq<System>, events: seq<Event>, n: nat, job: int)
    requires IsRun(states, events) && n < |states| && AM.RefusalTrace(states[n].agent, job)
    ensures RefusedBefore(events, n, job)
  {
    if n > 0 {
      var s, e := states[n - 1], events[n - 1];
      assert states[n] == Next(s, e);
      if e != AgentStep(AM.Refuse(job)) {
        RefusalTraceStays(s, e, job);
        RefusalHasCause(states, events, n - 1, job);
      }
    }
  }

  lemma {:induction false} RefusalTraceStays(s: System, e: Event, job: int)
    requires Can(s, e) && e != AgentStep(AM.Refuse(job)) && AM.RefusalTrace(Next(s, e).agent, job)
    ensures AM.RefusalTrace(s.agent, job)
  {
    if e.AgentStep? {
      AM.OnlyRefusalsLeaveTraces(s.agent, e.step, job);
    } else if e.Deliver? {
      AM.OnlyRefusalsLeaveTraces(s.agent, AM.Settle(e.job), job);
    } else if e.ReadCommand? {
      AM.OnlyRefusalsLeaveTraces(s.agent, AM.Receive(e.job, e.selfCancelling), job);
    } else if e.HandleCancel? {
      AM.OnlyRefusalsLeaveTraces(s.agent, AM.SignalCancel(e.job), job);
    }
  }

  /** The reports of a job that may be under way when its command is read: that of a worker refused
      by an upgrade, and that of a cancel command, on a job whose cancel is requested or over. */
  predicate ReportsAtCommand(s: System, events: seq<Event>, n: nat, job: int)
    requires n <= |events|
  {
    job in s.agent.kept ==>
      || (s.agent.kept[job] == AM.OfRefusal && RefusedBefore(events, n, job))
      || (s.agent.kept[job] == AM.OfCancel && CancelStands(s, job))
  }

  /** No job runs twice: whenever the agent reads a job's command, no worker is registered for the
      job and no outcome of an earlier run is unsettled; and no second command can follow it. */
  lemma {:induction false} NoDoubleRun(states: seq<System>, events: seq<Event>, n: nat)
    requires IsRun(states, events) && n < |events| && events[n].ReadCommand?
    ensures var job := events[n].job;
            && job !in states[n].agent.reg.events
            && !AM.Held(states[n].agent, job)
            && ReportsAtCommand(states[n], events, n, job)
            && Live(states[n + 1], job) == 0 && !AM.WorkOf(states[n + 1].agent, job).overlapped
  {
    var s, job := states[n], events[n].job;
    InvAt(states, events, n);
    InvAt(states, events, n + 1);
    assert JobOk(s, job) && JobOk(states[n + 1], job);
    assert AM.JobInv(s.agent, job);
    if AM.RefusalTrace(s.agent, job) {
      RefusalHasCause(states, events, n, job);
    }
  }

  /** A job that a hello or a heartbeat puts back on the queue is running nowhere: no worker is
      registered, no command sent for it can be read any more, and nothing is kept but at most the
      report of a worker that an upgrade refused before. */
  lemma {:induction false} RequeuedJobIsIdle(states: seq<System>, events: seq<Event>, n: nat)
    requires IsRun(states, events) && n < |events| && events[n].SettleJob?
    requires states[n + 1].jobs[events[n].job].rows.job.status == Queued
    ensures var s, job := states[n], events[n].job;
            && Idle(s, job)
            && job !in s.agent.reg.events
            && (job in s.agent.kept ==> s.agent.kept[job] == AM.OfRefusal && RefusedBefore(events, n, job))
  {
    var s, job := states[n], events[n].job;
    InvAt(states, events, n);
    assert JobOk(s, job) && AM.JobInv(s.agent, job);
    assert states[n + 1] == Next(s, events[n]);
    if job in s.agent.kept {
      RefusalHasCause(states, events, n, job);
    }
  }

  /** So unless an upgrade refused the job before, a requeued job holds no unsettled outcome. */
  lemma {:induction false} RequeuedJobHoldsNothing(states: seq<System>, events: seq<Event>, n: nat)
    requires IsRun(states, events) && n < |events| && events[n].SettleJob?
    requires states[n + 1].jobs[events[n].job].rows.job.status == Queued
    requires !RefusedBefore(events, n, events[n].job)
    ensures events[n].job !in states[n].agent.reg.events && events[n].job !in states[n].agent.kept
  {
    RequeuedJobIsIdle(states, events, n);
  }

  /** Frames of a session the agent has left are never read again. */
  lemma {:induction false} SessionsOnlyGrow(states: seq<System>, events: seq<Event>, m: nat, n: nat)
    requires IsRun(states, events) && m <= n < |states|
    ensures states[m].session <= states[n].session
  {
    if m < n {
      SessionsOnlyGrow(states, events, m, n - 1);
      assert states[n] == Next(states[n - 1], events[n - 1]);
    }
  }

  lemma {:induction false} CancelSurvivesStep(s: System, e: Event, job: int)
    requires Can(s, e) && CancelStands(s, job)
    ensures CancelStands(Next(s, e), job)
  {
    if e.Transact? || e.Deliver? {
      TransactionsBehave(e.txn, s.jobs[e.job].rows);
    }
  }

  /** A requested cancel survives every list, dispatch and report. */
  lemma {:induction false} CancelSurvives(states: seq<System>, events: seq<Event>, m: nat, n: nat, job: int)
    requires IsRun(states, events) && m <= n < |states| && CancelStands(states[m], job)
    ensures CancelStands(states[n], job)
  {
    if m < n {
      CancelSurvives(states, events, m, n - 1, job);
      CancelSurvivesStep(states[n - 1], events[n - 1], job);
    }
  }
}
