/**
 * One agent process: its session loop, the worker thread of every job, the threads that handle
 * cancel commands, the deliveries of outcomes and the upgrade requests, interleaved in any order
 * (agent/borg_ui_agent/session.py). A step is what one thread does under one lock hold, or between
 * two of them.
 */
module AgentModel {
  import opened Wrappers
  import opened WorkerRegistry

  /** How far the worker of a job has come. It is registered before its thread exists, passes the
      upgrade guard, runs its handler, keeps and delivers the outcome, and leaves the registry. */
  datatype Phase = Absent | Registered | Accepted | Running | Reported

  /** Whose report a kept outcome is. */
  datatype Origin = OfRun | OfRefusal | OfCancel

  /**
   * The threads of one job and what has happened to it.
   *   owed:       an accepted handler whose outcome the server has not settled
   *   refusing:   workers refused by an upgrade that have left the registry, report still to keep
   *   checking:   cancel threads that signalled nobody and go on to look for a kept outcome
   *   keeping:    cancel threads that found none and are about to keep `canceled`
   *   cancelled:  signalled since the worker (if any) registered or the last one left
   *   early:      a cancel thread was under way when the current command was received
   *   overlapped: a command was received while an earlier one was held
   *   overwritten: the cancel command replaced the kept outcome of the current run
   */
  datatype Work = Work(
    phase: Phase, owed: bool, refusing: nat, checking: nat, keeping: nat,
    cancelled: bool, early: bool, selfCancelling: bool, overlapped: bool, overwritten: bool)

  const NO_WORK := Work(Absent, false, 0, 0, 0, false, false, false, false, false)

  datatype Agent = Agent(now: real, reg: Registry, kept: map<int, Origin>, work: map<int, Work>)

  const STARTED := Agent(0.0, Registry(map[], {}, {}, None), map[], map[])

  function WorkOf(a: Agent, job: int): Work {
    if job in a.work then a.work[job] else NO_WORK
  }

  /** Held: a worker is registered for the job, or an outcome of it is still unsettled. */
  predicate Held(a: Agent, job: int) {
    WorkOf(a, job).phase != Absent || WorkOf(a, job).owed
  }

  datatype Step =
    | Receive(job: int, selfCancelling: bool)
    | Accept(job: int)
    | Refuse(job: int)
    | KeepRefusal(job: int)
    | Start(job: int)
    | Report(job: int)
    | Leave(job: int)
    | Settle(job: int)
    | SignalCancel(job: int)
    | CheckKept(job: int)
    | KeepCancel(job: int)
    | ReserveUpgrade
    | ReleaseUpgrade
    | Tick(dt: real)

  predicate Can(a: Agent, s: Step) {
    match s
    case Receive(_, _) => true
    case Accept(job) => WorkOf(a, job).phase == Registered && !Claimed(a.reg, a.now)
    case Refuse(job) => WorkOf(a, job).phase == Registered && Claimed(a.reg, a.now)
    case KeepRefusal(job) => WorkOf(a, job).refusing > 0
    case Start(job) => WorkOf(a, job).phase == Accepted
    case Report(job) => WorkOf(a, job).phase == Running
    case Leave(job) => WorkOf(a, job).phase == Reported
    case Settle(job) => job in a.kept
    case SignalCancel(_) => true
    case CheckKept(job) => WorkOf(a, job).checking > 0
    case KeepCancel(job) => WorkOf(a, job).keeping > 0
    case ReserveUpgrade => true
    case ReleaseUpgrade => true
    case Tick(dt) => dt >= 0.0
  }

  function Next(a: Agent, s: Step): Agent
    requires Can(a, s)
  {
    match s
    case Receive(job, selfCancelling) =>
      var w := WorkOf(a, job);
      a.(reg := Register(a.reg, job, selfCancelling),
         work := a.work[job := w.(phase := Registered, selfCancelling := selfCancelling,
                                  early := w.checking > 0 || w.keeping > 0, overwritten := false,
                                  overlapped := w.overlapped || Held(a, job))])
    case Accept(job) => a.(work := a.work[job := WorkOf(a, job).(phase := Accepted, owed := true)])
    case Refuse(job) =>
      var w := WorkOf(a, job);
      a.(reg := Unregister(a.reg, job),
         work := a.work[job := w.(phase := Absent, cancelled := false, refusing := w.refusing + 1)])
    case KeepRefusal(job) =>
      var w := WorkOf(a, job);
      a.(kept := a.kept[job := OfRefusal], work := a.work[job := w.(refusing := w.refusing - 1)])
    case Start(job) => a.(work := a.work[job := WorkOf(a, job).(phase := Running)])
    case Report(job) =>
      a.(kept := a.kept[job := OfRun], work := a.work[job := WorkOf(a, job).(phase := Reported)])
    case Leave(job) =>
      a.(reg := Unregister(a.reg, job), work := a.work[job := WorkOf(a, job).(phase := Absent, cancelled := false)])
    case Settle(job) =>
      var w := WorkOf(a, job);
      a.(kept := a.kept - {job}, work := a.work[job := w.(owed := w.owed && w.phase in {Accepted, Running})])
    case SignalCancel(job) =>
      var w := WorkOf(a, job);
      var (reg, reportsItself) := Signal(a.reg, job);
      a.(reg := reg, work := a.work[job := w.(cancelled := true, checking := if reportsItself then w.checking
          else w.checking + 1)])
    case CheckKept(job) =>
      var w := WorkOf(a, job);
      a.(work := a.work[job := w.(checking := w.checking - 1, keeping := if job in a.kept then w.keeping
          else w.keeping + 1)])
    case KeepCancel(job) =>
      var w := WorkOf(a, job);
      a.(kept := a.kept[job := OfCancel],
         work := a.work[job := w.(keeping := w.keeping - 1, overwritten := w.overwritten
             || (job in a.kept && a.kept[job] == OfRun))])
    case ReserveUpgrade => a.(reg := Reserve(a.reg, a.now))
    case ReleaseUpgrade => a.(reg := Release(a.reg))
    case Tick(dt) => a.(now := a.now + dt)
  }

  /** What holds of one job as long as no command for it was received while it was held. */
  predicate JobInv(a: Agent, job: int) {
    var w := WorkOf(a, job);
    !w.overlapped ==>
      && (job in a.reg.events <==> w.phase != Absent)
      && (w.phase in {Accepted, Running} ==> w.owed)
      && (w.phase == Registered ==> !w.owed)
      && (w.owed && w.phase !in {Accepted, Running} ==> job in a.kept)
      && (job in a.kept && a.kept[job] == OfRun ==> w.owed)
      && (w.phase != Absent ==> a.reg.events[job] == w.cancelled && job !in a.reg.pending)
      && (w.phase == Absent ==> (job in a.reg.pending <==> w.cancelled))
      && (job in a.reg.selfCancelling <==> w.phase != Absent && w.selfCancelling)
      && (Claimed(a.reg, a.now) ==> w.phase in {Absent, Registered})
      && (w.selfCancelling && !w.early ==>
            && !w.overwritten
            && (w.phase != Absent ==> w.checking == w.keeping == 0)
            && (job in a.kept && a.kept[job] == OfRun ==> w.keeping == 0))
  }

  ghost predicate Inv(a: Agent) {
    forall job: int :: JobInv(a, job)
  }

  predicate Names(s: Step, job: int) {
    match s
    case ReserveUpgrade => false
    case ReleaseUpgrade => false
    case Tick(_) => false
    case _ => s.job == job
  }

  lemma {:induction false} OthersKeepInv(a: Agent, s: Step, job: int)
    requires JobInv(a, job) && Can(a, s) && !Names(s, job)
    ensures JobInv(Next(a, s), job)
  {
  }

  lemma {:induction false} WorkerKeepsInv(a: Agent, s: Step, job: int)
    requires JobInv(a, job) && Can(a, s) && Names(s, job)
    requires !s.SignalCancel? && !s.CheckKept? && !s.KeepCancel?
    ensures JobInv(Next(a, s), job)
  {
  }

  lemma {:induction false} CancelKeepsInv(a: Agent, s: Step, job: int)
    requires JobInv(a, job) && Can(a, s) && Names(s, job)
    requires s.SignalCancel? || s.CheckKept? || s.KeepCancel?
    ensures JobInv(Next(a, s), job)
  {
  }

  lemma {:induction false} StepKeepsInv(a: Agent, s: Step)
    requires Inv(a) && Can(a, s)
    ensures Inv(Next(a, s))
  {
    forall job: int ensures JobInv(Next(a, s), job) {
      assert JobInv(a, job);
      if !Names(s, job) {
        OthersKeepInv(a, s, job);
      } else if s.SignalCancel? || s.CheckKept? || s.KeepCancel? {
        CancelKeepsInv(a, s, job);
      } else {
        WorkerKeepsInv(a, s, job);
      }
    }
  }

  /** A cancel command of the job has been handled and left something behind. */
  predicate CancelTrace(a: Agent, job: int) {
    WorkOf(a, job).checking > 0 || WorkOf(a, job).keeping > 0 || (job in a.kept && a.kept[job] == OfCancel)
  }

  /** Without a command nothing makes an agent hold a job, and without a cancel command nothing
      makes it report one. */
  lemma {:induction false} OnlyCommandsAdd(a: Agent, s: Step, job: int)
    requires Inv(a) && Can(a, s) && !WorkOf(a, job).overlapped
    ensures var b := Next(a, s);
            && (!(s.Receive? && s.job == job) ==>
                  && !WorkOf(b, job).overlapped
                  && (Held(b, job) ==> Held(a, job))
                  && (WorkOf(a, job).phase == Absent ==> WorkOf(b, job).phase == Absent))
            && (s != SignalCancel(job) ==> CancelTrace(b, job) ==> CancelTrace(a, job))
  {
    assert JobInv(a, job);
  }

  /** A worker was refused by an upgrade and left something behind. */
  predicate RefusalTrace(a: Agent, job: int) {
    WorkOf(a, job).refusing > 0 || (job in a.kept && a.kept[job] == OfRefusal)
  }

  /** Only a refusal leaves the trace of one. */
  lemma {:induction false} OnlyRefusalsLeaveTraces(a: Agent, s: Step, job: int)
    requires Can(a, s) && s != Refuse(job)
    ensures RefusalTrace(Next(a, s), job) ==> RefusalTrace(a, job)
  {
  }

  // ---- Runs

  predicate IsRun(states: seq<Agent>, steps: seq<Step>) {
    && |states| == |steps| + 1
    && forall i :: 0 <= i < |steps| ==> Can(states[i], steps[i]) && states[i + 1] == Next(states[i], steps[i])
  }

  predicate FromStart(states: seq<Agent>, steps: seq<Step>) {
    IsRun(states, steps) && states[0] == STARTED
  }

  lemma {:induction false} InvAt(states: seq<Agent>, steps: seq<Step>, n: nat)
    requires FromStart(states, steps) && n < |states|
    ensures Inv(states[n])
  {
    if n == 0 {
      forall job: int ensures JobInv(STARTED, job) {
      }
    } else {
      InvAt(states, steps, n - 1);
      StepKeepsInv(states[n - 1], steps[n - 1]);
    }
  }

  // ---- Cancel

  /** Whichever of the job command and the cancel came first, once the job is registered its event
      is set exactly if it was cancelled; while it is not, the cancel waits for it. */
  lemma {:induction false} CancelIsNotLost(states: seq<Agent>, steps: seq<Step>, n: nat, job: int)
    requires FromStart(states, steps) && n < |states| && !WorkOf(states[n], job).overlapped
    ensures var a := states[n];
            if job in a.reg.events then a.reg.events[job] == WorkOf(a, job).cancelled
            else (job in a.reg.pending) == WorkOf(a, job).cancelled
  {
    InvAt(states, steps, n);
    assert JobInv(states[n], job);
  }

  /** A cancel command leaves the report to the worker if and only if one is registered and its kind
      cancels itself; otherwise its thread goes on to look for a kept outcome. */
  lemma {:induction false} CancelGoesOnExactly(states: seq<Agent>, steps: seq<Step>, n: nat, job: int)
    requires FromStart(states, steps) && n < |steps| && steps[n] == SignalCancel(job)
    requires !WorkOf(states[n], job).overlapped
    ensures var w, next := WorkOf(states[n], job), WorkOf(states[n + 1], job);
            next.checking == w.checking + (if w.phase != Absent && w.selfCancelling then 0 else 1)
  {
    InvAt(states, steps, n);
    assert JobInv(states[n], job) && states[n + 1] == Next(states[n], steps[n]);
  }

  /** The cancel command of a self-cancelling kind never replaces the outcome of the run, unless a
      cancel thread was already under way when the job's command was received. */
  lemma {:induction false} CancelKeepsRealOutcome(states: seq<Agent>, steps: seq<Step>, n: nat, job: int)
    requires FromStart(states, steps) && n < |states|
    ensures var w := WorkOf(states[n], job);
            w.overwritten && w.selfCancelling && !w.overlapped ==> w.early
  {
    InvAt(states, steps, n);
    assert JobInv(states[n], job);
  }

  // The guard is exact: a cancel thread under way at the job's command is also enough.

  predicate CancelUnderWay(a: Agent, job: int) {
    WorkOf(a, job).checking > 0 || WorkOf(a, job).keeping > 0
  }

  function After(a: Agent, steps: seq<Step>): Option<Agent>
    decreases |steps|
  {
    if steps == [] then Some(a)
    else if !Can(a, steps[0]) then None
    else After(Next(a, steps[0]), steps[1..])
  }

  predicate NoCommand(steps: seq<Step>, job: int) {
    forall i :: 0 <= i < |steps| && steps[i].Receive? ==> steps[i].job != job
  }

  /** Some way to go on, without a further command for the job, lets the cancel command replace the
      outcome of the run. */
  ghost predicate CanOverwrite(a: Agent, job: int) {
    exists steps: seq<Step> :: NoCommand(steps, job) && After(a, steps).Some?
        && WorkOf(After(a, steps).value, job).overwritten
  }

  /** Received as self-cancelling, with no cancel thread under way and nothing overlapping. */
  predicate Undisturbed(a: Agent, job: int) {
    var w := WorkOf(a, job);
    w.selfCancelling && !w.early && !w.overlapped
  }

  lemma {:induction false} UndisturbedKeepsOutcome(a: Agent, steps: seq<Step>, job: int)
    requires Inv(a) && Undisturbed(a, job) && NoCommand(steps, job) && After(a, steps).Some?
    ensures !WorkOf(After(a, steps).value, job).overwritten
    decreases |steps|
  {
    assert JobInv(a, job);
    if steps != [] {
      StepKeepsInv(a, steps[0]);
      assert NoCommand(steps[1..], job) by {
        assert forall i :: 0 <= i < |steps[1..]| ==> steps[1..][i] == steps[i + 1];
      }
      UndisturbedKeepsOutcome(Next(a, steps[0]), steps[1..], job);
    }
  }

  lemma {:induction false} GoOn(a: Agent, s: Step, job: int)
    requires Can(a, s) && (s.Receive? ==> s.job != job) && CanOverwrite(Next(a, s), job)
    ensures CanOverwrite(a, job)
  {
    var steps: seq<Step> :| NoCommand(steps, job) && After(Next(a, s), steps).Some?
        && WorkOf(After(Next(a, s), steps).value, job).overwritten;
    assert ([s] + steps)[1..] == steps;
    assert NoCommand([s] + steps, job);
  }

  /** The run reports, and the cancel thread that found nothing before keeps its own report. */
  lemma {:induction false} KeepingOverwrites(a: Agent, job: int)
    requires WorkOf(a, job).keeping > 0 && WorkOf(a, job).phase == Registered && a.reg.upgradingUntil.None?
    ensures CanOverwrite(a, job)
  {
    var b := Next(a, Accept(job));
    var c := Next(b, Start(job));
    var d := Next(c, Report(job));
    var e := Next(d, KeepCancel(job));
    assert WorkOf(e, job).overwritten;
    assert After(e, []) == Some(e) && NoCommand([], job);
    GoOn(d, KeepCancel(job), job);
    GoOn(c, Report(job), job);
    GoOn(b, Start(job), job);
    GoOn(a, Accept(job), job);
  }

  lemma {:induction false} CancelUnderWayOverwrites(a: Agent, job: int)
    requires CancelUnderWay(a, job) && WorkOf(a, job).phase == Registered
    ensures CanOverwrite(a, job)
    decreases WorkOf(a, job).keeping == 0, job in a.kept
  {
    if WorkOf(a, job).keeping == 0 {
      if job in a.kept {
        var b := Next(a, Settle(job));
        CancelUnderWayOverwrites(b, job);
        GoOn(a, Settle(job), job);
      } else {
        var b := Next(a, CheckKept(job));
        CancelUnderWayOverwrites(b, job);
        GoOn(a, CheckKept(job), job);
      }
    } else {
      KeepingOverwrites(Next(a, ReleaseUpgrade), job);
      GoOn(a, ReleaseUpgrade, job);
    }
  }

  /** When the command of a self-cancelling kind is received for a job the agent does not hold, the
      run's outcome can end up replaced by the cancel command if and only if a cancel thread that
      signalled nobody is still under way at that moment. */
  lemma {:induction false} OverwritableExactly(a: Agent, job: int)
    requires Inv(a) && !Held(a, job) && !WorkOf(a, job).overlapped
    ensures CanOverwrite(Next(a, Receive(job, true)), job) <==> CancelUnderWay(a, job)
  {
    var b := Next(a, Receive(job, true));
    if CancelUnderWay(a, job) {
      CancelUnderWayOverwrites(b, job);
    } else {
      StepKeepsInv(a, Receive(job, true));
      forall steps: seq<Step> | NoCommand(steps, job) && After(b, steps).Some?
        ensures !WorkOf(After(b, steps).value, job).overwritten
      {
        UndisturbedKeepsOutcome(b, steps, job);
      }
    }
  }

  /** A run in which it happens: a cancel that signals nobody because the job's command is read
      right after it looks for a kept outcome before there is one, and replaces it later. */
  lemma {:induction false} EarlyCancelOverwrites(job: int) returns (states: seq<Agent>, steps: seq<Step>)
    ensures FromStart(states, steps) && |steps| == 7
    ensures var a := states[7]; var w := WorkOf(a, job);
            w.overwritten && w.selfCancelling && !w.overlapped && a.kept == map[job := OfCancel]
  {
    states, steps := CancelLooksTooEarly(job);
    states, steps := RunReports(states, steps, job);
    states, steps := Continue(states, steps, KeepCancel(job));
  }

  /** A self-cancelling job whose cancel thread is about to keep `canceled`. */
  const DOOMED := Work(Registered, false, 0, 0, 1, true, true, true, false, false)

  lemma {:induction false} CancelLooksTooEarly(job: int) returns (states: seq<Agent>, steps: seq<Step>)
    ensures FromStart(states, steps) && |steps| == 3
    ensures WorkOf(states[3], job) == DOOMED && states[3].kept == map[] && states[3].reg.upgradingUntil.None?
  {
    states, steps := Continue([STARTED], [], SignalCancel(job));
    states, steps := Continue(states, steps, Receive(job, true));
    states, steps := Continue(states, steps, CheckKept(job));
  }

  lemma {:induction false} RunReports(before: seq<Agent>, taken: seq<Step>, job: int)
          returns (states: seq<Agent>, steps: seq<Step>)
    requires FromStart(before, taken) && |taken| == 3
    requires WorkOf(before[3], job) == DOOMED && before[3].kept == map[] && before[3].reg.upgradingUntil.None?
    ensures FromStart(states, steps) && |steps| == 6
    ensures WorkOf(states[6], job) == DOOMED.(phase := Reported, owed := true) && states[6].kept == map[job := OfRun]
  {
    states, steps := Continue(before, taken, Accept(job));
    states, steps := Continue(states, steps, Start(job));
    states, steps := Continue(states, steps, Report(job));
  }

  /** A run goes on by one step. */
  lemma {:induction false} Continue(states: seq<Agent>, steps: seq<Step>, s: Step)
          returns (longer: seq<Agent>, more: seq<Step>)
    requires FromStart(states, steps) && Can(states[|steps|], s)
    ensures FromStart(longer, more) && |more| == |steps| + 1 && longer[|more|] == Next(states[|steps|], s)
            && states <= longer
  {
    longer, more := states + [Next(states[|steps|], s)], steps + [s];
    forall i | 0 <= i < |more| ensures Can(longer[i], more[i]) && longer[i + 1] == Next(longer[i], more[i]) {
      if i < |steps| {
        assert longer[i] == states[i] && longer[i + 1] == states[i + 1] && more[i] == steps[i];
      }
    }
  }

  // ---- Upgrade exclusion

  /** A reservation succeeds exactly when no job is registered and no claim is live. */
  lemma {:induction false} ReservationSucceedsExactly(states: seq<Agent>, steps: seq<Step>, n: nat)
    requires FromStart(states, steps) && n < |states|
    requires forall job :: job in states[n].work ==> !states[n].work[job].overlapped
    ensures Reservable(states[n].reg, states[n].now)
            <==> (!Claimed(states[n].reg, states[n].now)
                  && (forall job :: job in states[n].work ==> states[n].work[job].phase == Absent))
  {
    var a := states[n];
    InvAt(states, steps, n);
    if forall job :: job in a.work ==> a.work[job].phase == Absent {
      forall job ensures job !in a.reg.events {
        assert JobInv(a, job);
      }
    } else {
      var job :| job in a.work && a.work[job].phase != Absent;
      assert JobInv(a, job);
      assert job in a.reg.events.Keys;
    }
  }

  predicate StartsHandler(s: Step) {
    s.Accept? || s.Start?
  }

  lemma {:induction false} ClaimStands(states: seq<Agent>, steps: seq<Step>, from: nat, n: nat, until: real)
    requires IsRun(states, steps) && from <= n < |states|
    requires states[from].reg.upgradingUntil == Some(until)
    requires forall i :: from <= i < n ==> !steps[i].ReleaseUpgrade?
    ensures states[n].now >= until || states[n].reg.upgradingUntil == Some(until)
  {
    if from < n {
      ClaimStands(states, steps, from, n - 1, until);
      var step := steps[n - 1];
      assert states[n] == Next(states[n - 1], step);
    }
  }

  /** From a reservation on no worker passes the guard and no handler starts before the claim's
      deadline, unless the claim is released, in whatever order the session loop, the workers and
      further upgrade requests take their steps. */
  lemma {:induction false} NoHandlerStartsWhileReserved(states: seq<Agent>, steps: seq<Step>, from: nat, n: nat)
    requires FromStart(states, steps) && from < n < |steps|
    requires steps[from] == ReserveUpgrade && Reservable(states[from].reg, states[from].now)
    requires forall i :: from <= i < n ==> !steps[i].ReleaseUpgrade?
    requires StartsHandler(steps[n]) && !WorkOf(states[n], steps[n].job).overlapped
    ensures states[n].now >= states[from].now + UPGRADE_CLAIM_SECONDS
  {
    assert states[from + 1] == Next(states[from], steps[from]);
    ClaimStands(states, steps, from + 1, n, states[from].now + UPGRADE_CLAIM_SECONDS);
    InvAt(states, steps, n);
    assert JobInv(states[n], steps[n].job);
    assert Can(states[n], steps[n]);
  }

  // ---- Listing

  predicate Listed(states: seq<Agent>, first: nat, second: nat, job: int)
    requires first < |states| && second < |states|
  {
    job in states[first].reg.events || job in states[second].kept
  }

  /** The agent holds the job in every state from the first read to the second, by one command. */
  predicate HeldThroughout(states: seq<Agent>, first: nat, second: nat, job: int)
    requires first <= second < |states|
  {
    forall i :: first <= i <= second ==> Held(states[i], job) && !WorkOf(states[i], job).overlapped
  }

  /** The list is read in two steps, the registry first and the store later. It still names every
      job that is held throughout, registered only or accepted and its outcome unsettled: such a job
      moves from the one to the other, never out of both. */
  lemma {:induction false} ListingHasNoGap(states: seq<Agent>, steps: seq<Step>, first: nat, second: nat, job: int)
    requires FromStart(states, steps) && first <= second < |states| && HeldThroughout(states, first, second, job)
    ensures Listed(states, first, second, job)
  {
    InvAt(states, steps, first);
    assert Held(states[first], job) && JobInv(states[first], job);
    if job !in states[first].reg.events {
      LeftRunStaysKept(states, steps, first, second, job);
    }
  }

  lemma {:induction false} LeftRunStep(a: Agent, s: Step, job: int)
    requires Can(a, s) && WorkOf(a, job).phase == Absent && WorkOf(a, job).owed && !WorkOf(Next(a, s), job).overlapped
    ensures WorkOf(Next(a, s), job).phase == Absent
  {
  }

  lemma {:induction false} LeftRunGoesOn(states: seq<Agent>, steps: seq<Step>, n: nat, job: int)
    requires IsRun(states, steps) && n < |steps| && Inv(states[n]) && !WorkOf(states[n], job).overlapped
    requires WorkOf(states[n], job).phase == Absent && Held(states[n], job) && !WorkOf(states[n + 1], job).overlapped
    ensures WorkOf(states[n + 1], job).phase == Absent
  {
    assert JobInv(states[n], job);
    assert Can(states[n], steps[n]) && states[n + 1] == Next(states[n], steps[n]);
    LeftRunStep(states[n], steps[n], job);
  }

  lemma {:induction false} LeftRunStaysKept(states: seq<Agent>, steps: seq<Step>, first: nat, n: nat, job: int)
    requires FromStart(states, steps) && first <= n < |states|
    requires WorkOf(states[first], job).phase == Absent && HeldThroughout(states, first, n, job)
    ensures WorkOf(states[n], job).phase == Absent && job in states[n].kept
  {
    if first < n {
      assert HeldThroughout(states, first, n - 1, job);
      LeftRunStaysKept(states, steps, first, n - 1, job);
      InvAt(states, steps, n - 1);
      LeftRunGoesOn(states, steps, n - 1, job);
    }
    InvAt(states, steps, n);
    assert JobInv(states[n], job) && Held(states[n], job);
  }

  /** A job refused by an upgrade does leave both for a moment: its worker unregisters before it
      keeps the failure it reports. */
  lemma {:induction false} RefusedJobIsInNeitherList(job: int) returns (states: seq<Agent>, steps: seq<Step>)
    ensures FromStart(states, steps) && |steps| == 3
    ensures WorkOf(states[2], job).phase == Registered && WorkOf(states[3], job).refusing == 1
    ensures !Listed(states, 3, 3, job) && !WorkOf(states[3], job).overlapped
  {
    var first, begun := Continue([STARTED], [], ReserveUpgrade);
    var second, received := Continue(first, begun, Receive(job, false));
    states, steps := Continue(second, received, Refuse(job));
  }
}
