/**
 * The registry of live workers that an agent process keeps across its sessions: cancel events,
 * early cancels, and the claim of an upgrade (agent/borg_ui_agent/session.py). Every operation
 * runs under one lock, so each is one step from registry to registry.
 */
module WorkerRegistry {
  import opened Wrappers

  /** `events` maps every registered job to whether its cancel event is set. */
  datatype Registry = Registry(events: map<int, bool>, pending: set<int>, selfCancelling: set<int>,
      upgradingUntil: Option<real>)

  const UPGRADE_CLAIM_SECONDS := 600.0

  function Register(r: Registry, job: int, selfCancelling: bool): Registry {
    r.(events := r.events[job := job in r.pending],
       pending := r.pending - {job},
       selfCancelling := if selfCancelling then r.selfCancelling + {job} else r.selfCancelling)
  }

  /** The second component: a worker was signalled that reports the cancel itself. */
  function Signal(r: Registry, job: int): (Registry, bool) {
    if job in r.events then (r.(events := r.events[job := true]), job in r.selfCancelling)
    else (r.(pending := r.pending + {job}), false)
  }

  function Unregister(r: Registry, job: int): Registry {
    r.(events := r.events - {job}, pending := r.pending - {job}, selfCancelling := r.selfCancelling - {job})
  }

  predicate Claimed(r: Registry, now: real) {
    r.upgradingUntil.Some? && now < r.upgradingUntil.value
  }

  predicate Reservable(r: Registry, now: real) {
    r.events.Keys == {} && !Claimed(r, now)
  }

  function Reserve(r: Registry, now: real): Registry {
    if Reservable(r, now) then r.(upgradingUntil := Some(now + UPGRADE_CLAIM_SECONDS)) else r
  }

  function Release(r: Registry): Registry {
    r.(upgradingUntil := None)
  }
}

/** The class that holds the registry, on mutable fields and event objects. */
module AgentSession {
  import opened Wrappers
  import opened IdLists
  import opened WorkerRegistry
  import Outcomes

  class CancelEvent {
    var isSet: bool

    constructor ()
      ensures !isSet
    {
      isSet := false;
    }
  }

  class AgentSessionRuntime {
    var cancelEvents: map<int, CancelEvent>
    var pendingCancels: set<int>
    var selfCancellingJobs: set<int>
    var upgradingUntil: Option<real>

    ghost predicate Valid()
      reads this
    {
      forall a, b :: a in cancelEvents && b in cancelEvents && a != b ==> cancelEvents[a] != cancelEvents[b]
    }

    ghost function Events(): set<CancelEvent>
      reads this
    {
      set job | job in cancelEvents :: cancelEvents[job]
    }

    ghost function View(): Registry
      reads this, Events()
    {
      Registry(map job | job in cancelEvents :: cancelEvents[job].isSet, pendingCancels, selfCancellingJobs,
          upgradingUntil)
    }

    constructor ()
      ensures Valid() && View() == Registry(map[], {}, {}, None)
    {
      cancelEvents, pendingCancels, selfCancellingJobs, upgradingUntil := map[], {}, {}, None;
    }

    /** A cancel that came first is not lost: the new event is set from the start. */
    method RegisterCancel(job: int, selfCancelling: bool) returns (event: CancelEvent)
      requires Valid()
      modifies this
      ensures Valid() && View() == Register(old(View()), job, selfCancelling)
      ensures fresh(event) && job in cancelEvents && cancelEvents[job] == event
      ensures event.isSet == (job in old(pendingCancels))
    {
      event := new CancelEvent();
      if job in pendingCancels {
        pendingCancels := pendingCancels - {job};
        event.isSet := true;
      }
      cancelEvents := cancelEvents[job := event];
      if selfCancelling {
        selfCancellingJobs := selfCancellingJobs + {job};
      }
    }

    method SignalCancel(job: int) returns (reportsItself: bool)
      requires Valid()
      modifies this`pendingCancels, Events()
      ensures Valid() && View() == Signal(old(View()), job).0 && reportsItself == Signal(old(View()), job).1
    {
      if job in cancelEvents {
        cancelEvents[job].isSet := true;
        forall other | other in cancelEvents && other != job
            ensures cancelEvents[other].isSet == old(cancelEvents[other].isSet) {
          assert cancelEvents[other] != cancelEvents[job];
        }
        return job in selfCancellingJobs;
      }
      pendingCancels := pendingCancels + {job};
      assert View().events == old(View()).events;
      return false;
    }

    method UnregisterCancel(job: int)
      requires Valid()
      modifies this
      ensures Valid() && View() == Unregister(old(View()), job)
      ensures cancelEvents == old(cancelEvents) - {job} && upgradingUntil == old(upgradingUntil)
      ensures pendingCancels == old(pendingCancels) - {job} && selfCancellingJobs == old(selfCancellingJobs) - {job}
    {
      cancelEvents := cancelEvents - {job};
      pendingCancels := pendingCancels - {job};
      selfCancellingJobs := selfCancellingJobs - {job};
    }

    method UpgradeClaimed(now: real) returns (claimed: bool)
      ensures claimed == Claimed(View(), now)
      ensures claimed <==> upgradingUntil.Some? && now < upgradingUntil.value
    {
      claimed := upgradingUntil.Some? && now < upgradingUntil.value;
    }

    /** The jobs that stand in the way, [-1] for another upgrade, or nothing once claimed. */
    method ReserveForUpgrade(now: real) returns (running: seq<int>)
      requires Valid()
      modifies this`upgradingUntil
      ensures Valid() && View() == Reserve(old(View()), now)
      ensures running == [] <==> Reservable(old(View()), now)
      ensures running == [] <==> old(cancelEvents).Keys == {}
                                 && (old(upgradingUntil).None? || now >= old(upgradingUntil).value)
      ensures upgradingUntil == if running == [] then Some(now + 600.0) else old(upgradingUntil)
      ensures cancelEvents.Keys != {} ==> Listed(running, cancelEvents.Keys)
      ensures cancelEvents.Keys == {} && running != [] ==> running == [-1]
    {
      assert View().events.Keys == cancelEvents.Keys;
      running := SortedIds(cancelEvents.Keys);
      if running != [] {
        assert running[0] in running;
        return;
      }
      assert forall job :: job !in cancelEvents.Keys;
      if upgradingUntil.Some? && now < upgradingUntil.value {
        return [-1];
      }
      upgradingUntil := Some(now + UPGRADE_CLAIM_SECONDS);
      return [];
    }

    method ReleaseUpgrade()
      requires Valid()
      modifies this`upgradingUntil
      ensures Valid() && View() == Release(old(View())) && upgradingUntil.None?
    {
      upgradingUntil := None;
    }

    /** What a hello or a heartbeat lists: registered jobs, and jobs whose outcome is kept. */
    method RunningJobIds(kept: Outcomes.KeptOutcomes) returns (ids: seq<int>)
      ensures Listed(ids, View().events.Keys + kept.outcomes.Keys)
    {
      var running := cancelEvents.Keys;
      var unsettled := kept.JobIds();
      ids := SortedIds(running + unsettled);
      assert View().events.Keys == running;
    }
  }
}
