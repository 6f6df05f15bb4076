/**
 * Job outcomes the server has not acknowledged yet (agent/borg_ui_agent/outcomes.py) and their
 * delivery (agent/borg_ui_agent/session.py): what each answer does to the store, and that every
 * outcome is settled in bounded time by a server that answers.
 */
module Outcomes {
  import opened Wrappers
  import opened AgentRequests
  import opened IdLists

  datatype Kind = Complete | Fail | Cancel | Refused

  datatype Outcome = Outcome(kind: Kind, body: string, retryingSince: Option<real>)

  /** Seconds. */
  const OUTCOME_RETRY_LIMIT_SECONDS := 900.0

  class KeptOutcomes {
    var outcomes: map<int, Outcome>

    constructor ()
      ensures outcomes == map[]
    {
      outcomes := map[];
    }

    method Keep(jobId: int, kind: Kind, body: string)
      modifies this
      ensures outcomes == old(outcomes)[jobId := Outcome(kind, body, None)]
    {
      outcomes := outcomes[jobId := Outcome(kind, body, None)];
    }

    method Acknowledge(jobId: int)
      modifies this
      ensures outcomes == old(outcomes) - {jobId}
    {
      outcomes := outcomes - {jobId};
    }

    /** The clock starts with the first answer that might change, and is never moved again. */
    method RetryingSince(jobId: int, now: real) returns (since: real)
      modifies this
      ensures since == ClockOf(old(outcomes), jobId, now)
      ensures outcomes == Clocked(old(outcomes), jobId, now)
    {
      if jobId !in outcomes {
        return now;
      }
      var outcome := outcomes[jobId];
      if outcome.retryingSince.None? {
        outcomes := outcomes[jobId := outcome.(retryingSince := Some(now))];
        return now;
      }
      return outcome.retryingSince.value;
    }

    method Has(jobId: int) returns (kept: bool)
      ensures kept == (jobId in outcomes)
    {
      kept := jobId in outcomes;
    }

    method Pending() returns (pending: seq<(int, Kind, string)>)
      ensures Listed(Ids(pending), outcomes.Keys)
      ensures forall i :: 0 <= i < |pending| ==>
                pending[i].0 in outcomes && pending[i].1 == outcomes[pending[i].0].kind
                    && pending[i].2 == outcomes[pending[i].0].body
    {
      var ids := SortedIds(outcomes.Keys);
      assert forall i :: 0 <= i < |ids| ==> ids[i] in ids;
      pending := seq(|ids|, i requires 0 <= i < |ids| && ids[i] in outcomes reads this =>
        (ids[i], outcomes[ids[i]].kind, outcomes[ids[i]].body));
      assert Ids(pending) == ids;
    }

    method JobIds() returns (ids: set<int>)
      ensures ids == outcomes.Keys
    {
      ids := outcomes.Keys;
    }
  }

  function Ids(pending: seq<(int, Kind, string)>): seq<int> {
    seq(|pending|, i requires 0 <= i < |pending| => pending[i].0)
  }

  function ClockOf(m: map<int, Outcome>, jobId: int, now: real): real {
    if jobId in m && m[jobId].retryingSince.Some? then m[jobId].retryingSince.value else now
  }

  function Clocked(m: map<int, Outcome>, jobId: int, now: real): map<int, Outcome> {
    if jobId in m then m[jobId := m[jobId].(retryingSince := Some(ClockOf(m, jobId, now)))] else m
  }

  // ---- One delivery

  /** One report of one outcome: when it was sent and how the server answered. */
  datatype Sent = Sent(at: real, answer: Answer)

  function PlainFailure(reason: string): Outcome {
    Outcome(Refused, reason, None)
  }

  const REFUSED_REASON := "refused the agent's report"
  const EXPIRED_REASON := "did not take the agent's report for 15 minutes"

  /** What one answer makes of an outcome; None once it leaves the store. */
  function AfterAnswer(o: Outcome, sent: Sent): Option<Outcome> {
    match sent.answer
    case Unanswered => Some(o)
    case Accepted => None
    case Settled => None
    case Refusal => Rejected(o.kind, REFUSED_REASON)
    case Retry =>
      var since := OrElse(o.retryingSince, sent.at);
      if sent.at - since < OUTCOME_RETRY_LIMIT_SECONDS then Some(o.(retryingSince := Some(since)))
      else Rejected(o.kind, EXPIRED_REASON)
  }

  function OrElse(o: Option<real>, default: real): real {
    if o.Some? then o.value else default
  }

  function Updated(m: map<int, Outcome>, jobId: int, o: Option<Outcome>): map<int, Outcome> {
    if o.Some? then m[jobId := o.value] else m - {jobId}
  }

  function Held(m: map<int, Outcome>, jobId: int): Option<Outcome> {
    if jobId in m then Some(m[jobId]) else None
  }

  predicate Real(kind: Kind) {
    kind == Complete || kind == Fail
  }

  function Rejected(kind: Kind, reason: string): Option<Outcome> {
    if Real(kind) then Some(PlainFailure(reason)) else None
  }

  predicate Expired(held: Option<Outcome>, at: real) {
    held.Some? && at - OrElse(held.value.retryingSince, at) >= OUTCOME_RETRY_LIMIT_SECONDS
  }

  /** What one answer to a report of a job as `kind` makes of whatever the store holds for the job by
      then: the report was taken from the store earlier, and other threads use the store too. */
  function AnswerHeld(held: Option<Outcome>, kind: Kind, sent: Sent): Option<Outcome> {
    match sent.answer
    case Unanswered => held
    case Accepted => None
    case Settled => None
    case Refusal => Rejected(kind, REFUSED_REASON)
    case Retry =>
      if held.None? then None
      else
        var since := OrElse(held.value.retryingSince, sent.at);
        if sent.at - since < OUTCOME_RETRY_LIMIT_SECONDS then Some(held.value.(retryingSince := Some(since)))
        else Rejected(kind, EXPIRED_REASON)
  }

  function AfterDelivery(m: map<int, Outcome>, jobId: int, kind: Kind, sent: Sent): map<int, Outcome> {
    Updated(m, jobId, AnswerHeld(Held(m, jobId), kind, sent))
  }

  /** `_deliver_kept_outcome`, whatever the store holds for the job; True when it reports the
      outcome as settled. */
  method DeliverKeptOutcome(store: KeptOutcomes, jobId: int, kind: Kind, sent: Sent) returns (delivered: bool)
    modifies store
    ensures store.outcomes == AfterDelivery(old(store.outcomes), jobId, kind, sent)
    ensures delivered <==>
              || sent.answer in {Accepted, Settled}
              || (!Real(kind) && (sent.answer == Refusal
                  || (sent.answer == Retry && Expired(Held(old(store.outcomes), jobId), sent.at))))
  {
    var answer := sent.answer;
    if answer != Accepted {
      if answer == Unanswered {
        return false;
      }
      var reason := REFUSED_REASON;
      if answer == Retry {
        var since := store.RetryingSince(jobId, sent.at);
        if sent.at - since < OUTCOME_RETRY_LIMIT_SECONDS {
          return false;
        }
        answer := Refusal;
        reason := EXPIRED_REASON;
      }
      if answer == Refusal && (kind == Complete || kind == Fail) {
        store.Keep(jobId, Refused, reason);
        return false;
      }
    }
    store.Acknowledge(jobId);
    return true;
  }

  // ---- Whose outcome an answer settles

  /** The store holds what was reported. */
  predicate Holds(held: Option<Outcome>, kind: Kind, body: string) {
    held.Some? && held.value.kind == kind && held.value.body == body
  }

  /** The answer should settle the outcome that was reported, and nothing else. */
  function Meant(held: Option<Outcome>, kind: Kind, body: string, sent: Sent): Option<Outcome> {
    if Holds(held, kind, body) then AfterAnswer(held.value, sent) else held
  }

  /** The answer changes nothing although it was not about what the store holds: there was none, or
      nothing is held and nothing is put in its place, or the clock is running already, or the same
      plain failure is held. */
  predicate Harmless(held: Option<Outcome>, kind: Kind, sent: Sent) {
    || sent.answer == Unanswered
    || (held.None? && !(sent.answer == Refusal && Real(kind)))
    || (held.Some? && sent.answer == Retry && held.value.retryingSince.Some?
        && sent.at - held.value.retryingSince.value < OUTCOME_RETRY_LIMIT_SECONDS)
    || (sent.answer == Refusal && Real(kind) && held == Some(PlainFailure(REFUSED_REASON)))
  }

  /** A delivery settles the outcome it reported, and that alone, if and only if the store still
      holds that outcome, or the answer happens to be harmless. */
  lemma {:induction false} SettlesWhatItReportedExactly(held: Option<Outcome>, kind: Kind, body: string, sent: Sent)
    ensures AnswerHeld(held, kind, sent) == Meant(held, kind, body, sent)
            <==> Holds(held, kind, body) || Harmless(held, kind, sent)
  {
  }

  /** One job in the store: a thread keeps an outcome, or an answer to a report of the job is taken. */
  datatype Happening = Kept(kind: Kind, body: string) | Reported(kind: Kind, body: string, sent: Sent)

  function Happen(held: Option<Outcome>, h: Happening): Option<Outcome> {
    match h
    case Kept(kind, body) => Some(Outcome(kind, body, None))
    case Reported(kind, body, sent) => AnswerHeld(held, kind, sent)
  }

  function HappenAll(held: Option<Outcome>, hs: seq<Happening>): Option<Outcome>
    decreases |hs|
  {
    if hs == [] then held else HappenAll(Happen(held, hs[0]), hs[1..])
  }

  /** Every answer finds the outcome that was reported, or is harmless. */
  predicate Timely(held: Option<Outcome>, hs: seq<Happening>)
    decreases |hs|
  {
    hs == [] || ((hs[0].Reported? ==> Holds(held, hs[0].kind, hs[0].body) || Harmless(held, hs[0].kind, hs[0].sent))
                 && Timely(Happen(held, hs[0]), hs[1..]))
  }

  /** No answer changes anything but the outcome it was given to. */
  predicate AnswersAreMeant(held: Option<Outcome>, hs: seq<Happening>)
    decreases |hs|
  {
    hs == [] || ((hs[0].Reported? ==> Happen(held, hs[0]) == Meant(held, hs[0].kind, hs[0].body, hs[0].sent))
                 && AnswersAreMeant(Happen(held, hs[0]), hs[1..]))
  }

  lemma {:induction false} TimelyExactly(held: Option<Outcome>, hs: seq<Happening>)
    ensures AnswersAreMeant(held, hs) <==> Timely(held, hs)
    decreases |hs|
  {
    if hs != [] {
      if hs[0].Reported? {
        SettlesWhatItReportedExactly(held, hs[0].kind, hs[0].body, hs[0].sent);
      }
      TimelyExactly(Happen(held, hs[0]), hs[1..]);
    }
  }

  /** The answers to reports of what the store held, in order. */
  function OwnReports(held: Option<Outcome>, hs: seq<Happening>): seq<Sent>
    decreases |hs|
  {
    if hs == [] then []
    else (if hs[0].Reported? && Holds(held, hs[0].kind, hs[0].body) then [hs[0].sent] else [])
         + OwnReports(Happen(held, hs[0]), hs[1..])
  }

  predicate NothingNew(hs: seq<Happening>) {
    forall i :: 0 <= i < |hs| ==> hs[i].Reported?
  }

  lemma {:induction false} FaresByItsOwnReports(held: Option<Outcome>, hs: seq<Happening>)
    requires Timely(held, hs) && NothingNew(hs)
    ensures HappenAll(held, hs) == DeliverAll(held, OwnReports(held, hs))
    decreases |hs|
  {
    if hs != [] {
      var next := Happen(held, hs[0]);
      SettlesWhatItReportedExactly(held, hs[0].kind, hs[0].body, hs[0].sent);
      assert forall i :: 0 <= i < |hs[1..]| ==> hs[1..][i] == hs[i + 1];
      FaresByItsOwnReports(next, hs[1..]);
      var rest := OwnReports(next, hs[1..]);
      if Holds(held, hs[0].kind, hs[0].body) {
        assert ([hs[0].sent] + rest)[1..] == rest;
      } else {
        assert [] + rest == rest;
      }
    }
  }

  lemma {:induction false} HappenOn(held: Option<Outcome>, first: seq<Happening>, second: seq<Happening>)
    ensures HappenAll(held, first + second) == HappenAll(HappenAll(held, first), second)
    decreases |first|
  {
    if first == [] {
      assert first + second == second;
    } else {
      assert (first + second)[1..] == first[1..] + second;
      HappenOn(Happen(held, first[0]), first[1..], second);
    }
  }

  /** The job's last keep: everything after it is an answer. */
  predicate LastKeep(hs: seq<Happening>, k: nat) {
    k < |hs| && hs[k].Kept? && NothingNew(hs[k + 1..])
  }

  function KeptAt(hs: seq<Happening>, k: nat): Outcome
    requires k < |hs| && hs[k].Kept?
  {
    Outcome(hs[k].kind, hs[k].body, None)
  }

  /** The answers to reports of the outcome that was kept last, the keeper's own report among them. */
  function ReportsSince(hs: seq<Happening>, k: nat): seq<Sent>
    requires k < |hs| && hs[k].Kept?
  {
    OwnReports(Some(KeptAt(hs, k)), hs[k + 1..])
  }

  /** Whatever was held, kept and answered before: if the answers after the last keep are timely, the
      store ends as that outcome's own reports alone would leave it. */
  lemma {:induction false} LastKeepFaresByItsOwnReports(held: Option<Outcome>, hs: seq<Happening>, k: nat)
    requires LastKeep(hs, k) && Timely(Some(KeptAt(hs, k)), hs[k + 1..])
    ensures HappenAll(held, hs) == DeliverAll(Some(KeptAt(hs, k)), ReportsSince(hs, k))
  {
    var kept := KeptAt(hs, k);
    assert hs == hs[..k] + hs[k..] && hs[k..][1..] == hs[k + 1..];
    HappenOn(held, hs[..k], hs[k..]);
    FaresByItsOwnReports(Some(kept), hs[k + 1..]);
  }

  /** So in a store that several threads use, when a completion or a failure was kept last and is
      gone, a report of its own was answered: taken or settled, or replaced by a plain failure that
      was answered. */
  lemma {:induction false} NothingIsLostAmongThreads(held: Option<Outcome>, hs: seq<Happening>, k: nat)
    requires LastKeep(hs, k) && Real(hs[k].kind) && Timely(Some(KeptAt(hs, k)), hs[k + 1..])
    requires HappenAll(held, hs).None?
    ensures var o, own := KeptAt(hs, k), ReportsSince(hs, k);
            exists n :: 0 <= n < |own| && own[n].answer != Unanswered
                        && (own[n].answer in {Accepted, Settled}
                            || (DeliverAll(Some(o), own[..n]).Some?
                                && DeliverAll(Some(o), own[..n]).value.kind == Refused))
  {
    LastKeepFaresByItsOwnReports(held, hs, k);
    NothingIsLost(KeptAt(hs, k), ReportsSince(hs, k));
  }

  lemma {:induction false} ThreeHappenings(a: Happening, b: Happening, c: Happening)
    ensures var one, two := Happen(None, a), Happen(Happen(None, a), b);
            && HappenAll(None, [a, b, c]) == Happen(two, c)
            && (Timely(None, [a, b, c]) <==> Timely(None, [a]) && Timely(one, [b]) && Timely(two, [c]))
  {
    assert [a, b, c][1..] == [b, c] && [b, c][1..] == [c];
    assert [a][1..] == [] && [b][1..] == [] && [c][1..] == [];
    var one, two := Happen(None, a), Happen(Happen(None, a), b);
    assert HappenAll(two, [c]) == HappenAll(Happen(two, c), []);
    assert HappenAll(one, [b, c]) == HappenAll(two, [c]);
    assert Timely(one, [b, c]) <==> Timely(one, [b]) && Timely(two, [c]);
  }

  /** The condition fails in both ways the threads allow. A worker's own delivery is acknowledged
      while the pass still has the report in its list, and a refusal of that one puts a plain failure
      in place of nothing. */
  lemma {:induction false} StaleRefusalRevives(body: string, at: real)
    ensures var hs := [Kept(Complete, body), Reported(Complete, body, Sent(at, Accepted)),
                       Reported(Complete, body, Sent(at, Refusal))];
            HappenAll(None, hs) == Some(PlainFailure(REFUSED_REASON)) && !Timely(None, hs)
  {
    ThreeHappenings(Kept(Complete, body), Reported(Complete, body, Sent(at, Accepted)),
        Reported(Complete, body, Sent(at, Refusal)));
  }

  /** And an outcome kept while an older one of its job is being reported leaves the store with that
      one's answer. Its keeper still sends it once; when that report meets no answer, nothing is
      kept to send it again. */
  lemma {:induction false} NewOutcomeIsNotRedelivered(body: string, newer: string, at: real)
    ensures var hs := [Kept(Complete, body), Kept(Cancel, newer), Reported(Complete, body, Sent(at, Accepted)),
                       Reported(Cancel, newer, Sent(at, Unanswered))];
            && HappenAll(None, hs) == None
            && LastKeep(hs, 1) && ReportsSince(hs, 1) == [] && !Timely(Some(KeptAt(hs, 1)), hs[2..])
  {
    var accepted, silent := Reported(Complete, body, Sent(at, Accepted)), Reported(Cancel, newer, Sent(at, Unanswered));
    var hs := [Kept(Complete, body), Kept(Cancel, newer), accepted, silent];
    var o := Some(KeptAt(hs, 1));
    assert hs[2..] == [accepted, silent] && hs[2..][1..] == [silent] && [silent][1..] == [];
    assert hs == [Kept(Complete, body), Kept(Cancel, newer)] + hs[2..];
    HappenOn(None, [Kept(Complete, body), Kept(Cancel, newer)], hs[2..]);
    assert [Kept(Complete, body), Kept(Cancel, newer)][1..] == [Kept(Cancel, newer)];
    assert [Kept(Cancel, newer)][1..] == [];
    assert HappenAll(Happen(None, Kept(Complete, body)), [Kept(Cancel, newer)]) == HappenAll(o, []) == o;
    assert HappenAll(o, hs[2..]) == HappenAll(None, [silent]) == None;
    assert OwnReports(o, hs[2..]) == OwnReports(None, [silent]) == [];
  }

  // ---- One pass over the store

  /** The pass stopped before this id: an earlier or equal one met a server that is away. */
  predicate HeldBack(ids: set<int>, reports: int -> Sent, id: int) {
    exists k :: k in ids && k <= id && reports(k).answer == Unanswered
  }

  /** The answer to the id's report has been taken. */
  predicate Taken(before: map<int, Outcome>, after: map<int, Outcome>, reports: int -> Sent, id: int)
    requires id in before
  {
    Held(after, id) == AfterAnswer(before[id], reports(id))
  }

  predicate Untouched(before: map<int, Outcome>, after: map<int, Outcome>, id: int)
    requires id in before
  {
    Held(after, id) == Some(before[id])
  }

  /** One id before and after a pass. */
  predicate Passed(before: map<int, Outcome>, after: map<int, Outcome>, reports: int -> Sent, id: int)
    requires id in before
  {
    if HeldBack(before.Keys, reports, id) then Untouched(before, after, id) else Taken(before, after, reports, id)
  }

  /** What other threads made of some jobs meanwhile; None for an outcome that is gone. */
  type Changes = map<int, Option<Outcome>>

  function Changed(m: map<int, Outcome>, changes: Changes): map<int, Outcome> {
    map id | id in m.Keys + changes.Keys && (id in changes ==> changes[id].Some?) :: if id in changes
        then changes[id].value else m[id]
  }

  /** The list the pass works from: the outcomes of the store, by ascending id. */
  ghost predicate Lists(pending: seq<(int, Kind, string)>, m: map<int, Outcome>) {
    && Listed(Ids(pending), m.Keys)
    && forall i :: 0 <= i < |pending| ==>
         pending[i].0 in m && pending[i].1 == m[pending[i].0].kind && pending[i].2 == m[pending[i].0].body
  }

  /** The store after the pass, from the `n`th report on: before each answer other threads have had
      their turn, and a server that does not answer at all ends it. */
  function PassFrom(pending: seq<(int, Kind, string)>, n: nat, m: map<int, Outcome>, others: nat -> Changes,
          reports: int -> Sent): map<int, Outcome>
    requires n <= |pending|
    decreases |pending| - n
  {
    if n == |pending| then m
    else
      var (id, kind, body) := pending[n];
      var after := AfterDelivery(Changed(m, others(n)), id, kind, reports(id));
      if reports(id).answer == Unanswered then after else PassFrom(pending, n + 1, after, others, reports)
  }

  /** `_deliver_pending_outcomes`: one report per kept outcome, oldest id first, until the server
      does not answer at all. `reports` says what each report would meet, `others` what workers and
      their deliveries do to the store before each answer. */
  method DeliverPendingOutcomes(store: KeptOutcomes, reports: int -> Sent, others: nat -> Changes)
    returns (left: nat, ghost pending: seq<(int, Kind, string)>)
    modifies store
    ensures left == |store.outcomes|
    ensures Lists(pending, old(store.outcomes))
    ensures store.outcomes == PassFrom(pending, 0, old(store.outcomes), others, reports)
  {
    var list := store.Pending();
    pending := list;
    ghost var before := store.outcomes;
    for n := 0 to |list|
      invariant PassFrom(list, 0, before, others, reports) == PassFrom(list, n, store.outcomes, others, reports)
    {
      var (jobId, kind, body) := list[n];
      store.outcomes := Changed(store.outcomes, others(n));
      var delivered := DeliverKeptOutcome(store, jobId, kind, reports(jobId));
      if reports(jobId).answer == Unanswered {
        break;
      }
    }
    left := |store.outcomes|;
  }

  lemma {:induction false} PassFromSettles(pending: seq<(int, Kind, string)>, n: nat, before: map<int, Outcome>,
          now: map<int, Outcome>, others: nat -> Changes, reports: int -> Sent, i: nat)
    requires Lists(pending, before) && n <= |pending| && i < |pending|
    requires forall k :: n <= k < |pending| ==> pending[i].0 !in others(k)
    requires forall k :: 0 <= k < n ==> reports(Ids(pending)[k]).answer != Unanswered
    requires if i < n then Taken(before, now, reports, pending[i].0) else Untouched(before, now, pending[i].0)
    ensures Passed(before, PassFrom(pending, n, now, others, reports), reports, pending[i].0)
    decreases |pending| - n
  {
    var ids, id := Ids(pending), pending[i].0;
    assert ids[i] == id;
    if n == |pending| {
      NotHeldBack(ids, before.Keys, reports, i);
    } else {
      var after := AfterDelivery(Changed(now, others(n)), pending[n].0, pending[n].1, reports(pending[n].0));
      assert ids[n] == pending[n].0 && (n != i ==> ids[n] != ids[i]);
      assert Held(Changed(now, others(n)), id) == Held(now, id);
      if reports(pending[n].0).answer == Unanswered {
        if i < n {
          NotHeldBack(ids, before.Keys, reports, i);
        } else {
          assert ids[n] in before.Keys && ids[n] <= id;
        }
      } else {
        PassFromSettles(pending, n + 1, before, after, others, reports, i);
      }
    }
  }

  /** An outcome that no other thread touches during the pass ends as its own answer says, or stays
      as it was behind a report that met no answer; whatever happens to the others. */
  lemma {:induction false} PassSettlesUntouched(pending: seq<(int, Kind, string)>, before: map<int, Outcome>,
          others: nat -> Changes, reports: int -> Sent, id: int)
    requires Lists(pending, before) && id in before
    requires forall k :: 0 <= k < |pending| ==> id !in others(k)
    ensures Passed(before, PassFrom(pending, 0, before, others, reports), reports, id)
  {
    assert id in Ids(pending);
    var i :| 0 <= i < |pending| && Ids(pending)[i] == id;
    PassFromSettles(pending, 0, before, before, others, reports, i);
  }

  lemma {:induction false} NotHeldBack(ids: seq<int>, kept: set<int>, reports: int -> Sent, i: nat)
    requires Listed(ids, kept) && i < |ids|
    requires forall k :: 0 <= k <= i ==> reports(ids[k]).answer != Unanswered
    ensures !HeldBack(kept, reports, ids[i])
  {
    forall k | k in kept && k <= ids[i] ensures reports(k).answer != Unanswered {
      assert k in ids;
      var m :| 0 <= m < |ids| && ids[m] == k;
      assert m <= i;
    }
  }

  // ---- Deliveries of one outcome over time

  function DeliverAll(o: Option<Outcome>, reports: seq<Sent>): Option<Outcome>
    decreases |reports|
  {
    if o.None? || reports == [] then o else DeliverAll(AfterAnswer(o.value, reports[0]), reports[1..])
  }

  /** A completion or a failure leaves the store only with the server's consent; anything else the
      server says about it leaves it kept, as it is or as one plain failure. */
  lemma {:induction false} RealOutcomeNeedsConsent(o: Outcome, sent: Sent)
    requires o.kind == Complete || o.kind == Fail
    ensures AfterAnswer(o, sent).None? <==> sent.answer == Accepted || sent.answer == Settled
    ensures AfterAnswer(o, sent).Some? && AfterAnswer(o, sent).value.kind != o.kind ==>
              AfterAnswer(o, sent).value.kind == Refused && AfterAnswer(o, sent).value.retryingSince.None?
  {
  }

  /** When an outcome of any kind leaves the store, and what else an answer makes of it: at once if it
      was taken or settled; for a cancel or a plain failure also if it was refused, or if the server
      has put it off for fifteen minutes. Before that the first answer of this sort starts the clock. */
  lemma {:induction false} LeavesTheStoreExactly(o: Outcome, sent: Sent)
    ensures AfterAnswer(o, sent).None?
            <==> || sent.answer in {Accepted, Settled}
                 || (o.kind in {Cancel, Refused}
                     && (sent.answer == Refusal
                         || (sent.answer == Retry && o.retryingSince.Some?
                             && sent.at - o.retryingSince.value >= 900.0)))
    ensures sent.answer == Unanswered ==> AfterAnswer(o, sent) == Some(o)
    ensures sent.answer == Retry && o.retryingSince.None? ==>
              AfterAnswer(o, sent) == Some(Outcome(o.kind, o.body, Some(sent.at)))
    ensures sent.answer == Retry && o.retryingSince.Some? && sent.at - o.retryingSince.value < 900.0 ==>
              AfterAnswer(o, sent) == Some(o)
    ensures o.kind in {Complete, Fail} && sent.answer == Refusal ==>
              AfterAnswer(o, sent) == Some(Outcome(Refused, REFUSED_REASON, None))
    ensures o.kind in {Complete, Fail} && sent.answer == Retry && o.retryingSince.Some?
            && sent.at - o.retryingSince.value >= 900.0 ==>
              AfterAnswer(o, sent) == Some(Outcome(Refused, EXPIRED_REASON, None))
  {
  }

  /** The answer to a report of what the store holds does just that to it, and nothing to the outcomes
      of other jobs. */
  lemma {:induction false} DeliveryChangesOneJob(m: map<int, Outcome>, jobId: int, sent: Sent)
    requires jobId in m
    ensures Held(AfterDelivery(m, jobId, m[jobId].kind, sent), jobId) == AfterAnswer(m[jobId], sent)
    ensures AfterDelivery(m, jobId, m[jobId].kind, sent) - {jobId} == m - {jobId}
  {
    var after := AfterDelivery(m, jobId, m[jobId].kind, sent);
    assert (after - {jobId}).Keys == (m - {jobId}).Keys;
  }

  /** The retry clock is set once: a later answer finds the time of the first. */
  lemma {:induction false} ClockIsSetOnce(m: map<int, Outcome>, jobId: int, first: real, second: real)
    requires jobId in m && m[jobId].retryingSince.None?
    ensures ClockOf(m, jobId, first) == first
    ensures Clocked(m, jobId, first) == m[jobId := Outcome(m[jobId].kind, m[jobId].body, Some(first))]
    ensures ClockOf(Clocked(m, jobId, first), jobId, second) == first
    ensures Clocked(Clocked(m, jobId, first), jobId, second) == Clocked(m, jobId, first)
  {
  }

  /** The server puts every report off or does not answer, and no two of its answers are fifteen
      minutes apart, nor one from the time the clock was started. */
  predicate PutOff(o: Outcome, reports: seq<Sent>) {
    && (forall i :: 0 <= i < |reports| ==> reports[i].answer in {Unanswered, Retry})
    && (forall i :: 0 <= i < |reports| && reports[i].answer == Retry && o.retryingSince.Some? ==>
          reports[i].at - o.retryingSince.value < 900.0)
    && (forall i, j :: 0 <= i < j < |reports| && reports[i].answer == reports[j].answer == Retry ==>
          reports[j].at - reports[i].at < 900.0)
  }

  /** Until then an outcome of any kind is kept, as it is, for any number of reports. */
  lemma {:induction false} StaysWhilePutOff(o: Outcome, reports: seq<Sent>)
    requires PutOff(o, reports)
    ensures var left := DeliverAll(Some(o), reports);
            left.Some? && left.value.kind == o.kind && left.value.body == o.body
    decreases |reports|
  {
    if reports != [] {
      assert reports[0].answer in {Unanswered, Retry};
      LeavesTheStoreExactly(o, reports[0]);
      StaysWhilePutOff(AfterAnswer(o, reports[0]).value, reports[1..]);
    }
  }

  /** A server that is away is waited for without a limit. */
  lemma {:induction false} SilenceChangesNothing(o: Outcome, reports: seq<Sent>)
    requires forall i :: 0 <= i < |reports| ==> reports[i].answer == Unanswered
    ensures DeliverAll(Some(o), reports) == Some(o)
    decreases |reports|
  {
    if reports != [] {
      SilenceChangesNothing(o, reports[1..]);
    }
  }

  /** A completion or a failure that is gone was accepted, or settled elsewhere, or had been
      replaced by a plain failure that the server answered in its turn. */
  lemma {:induction false} NothingIsLost(o: Outcome, reports: seq<Sent>)
    requires o.kind == Complete || o.kind == Fail
    requires DeliverAll(Some(o), reports).None?
    ensures exists n :: 0 <= n < |reports| && reports[n].answer != Unanswered
                        && (reports[n].answer in {Accepted, Settled}
                            || (DeliverAll(Some(o), reports[..n]).Some?
                                && DeliverAll(Some(o), reports[..n]).value.kind == Refused))
    decreases |reports|
  {
    var next := AfterAnswer(o, reports[0]);
    if next.None? {
      assert reports[0].answer in {Accepted, Settled};
    } else if next.value.kind == Refused {
      var n := LastReport(next.value, reports[1..]);
      PrefixOfRest(o, reports, n + 1);
      assert reports[n + 1] == reports[1..][n];
    } else {
      NothingIsLost(next.value, reports[1..]);
      var n :| 0 <= n < |reports[1..]| && reports[1..][n].answer != Unanswered
               && (reports[1..][n].answer in {Accepted, Settled}
                   || (DeliverAll(Some(next.value), reports[1..][..n]).Some?
                       && DeliverAll(Some(next.value), reports[1..][..n]).value.kind == Refused));
      PrefixOfRest(o, reports, n + 1);
      assert reports[n + 1] == reports[1..][n];
    }
  }

  lemma {:induction false} PrefixOfRest(o: Outcome, reports: seq<Sent>, n: nat)
    requires 0 < n <= |reports|
    ensures DeliverAll(Some(o), reports[..n]) == DeliverAll(AfterAnswer(o, reports[0]), reports[1..][..n - 1])
  {
    assert reports[..n][1..] == reports[1..][..n - 1];
  }

  /** The report that removes a plain failure. */
  lemma {:induction false} LastReport(o: Outcome, reports: seq<Sent>) returns (n: nat)
    requires o.kind == Refused && DeliverAll(Some(o), reports).None?
    ensures n < |reports| && reports[n].answer != Unanswered
    ensures DeliverAll(Some(o), reports[..n]).Some? && DeliverAll(Some(o), reports[..n]).value.kind == Refused
    decreases |reports|
  {
    var next := AfterAnswer(o, reports[0]);
    if next.None? {
      n := 0;
    } else {
      var m := LastReport(next.value, reports[1..]);
      n := m + 1;
      PrefixOfRest(o, reports, n);
      assert reports[n] == reports[1..][m];
    }
  }

  /** Reports sent one after another, no later than `gap` after the last one (or after `since`,
      for the first), and every one of them answered. */
  predicate Steady(reports: seq<Sent>, since: real, gap: real)
    decreases |reports|
  {
    reports == [] || (since <= reports[0].at <= since + gap && reports[0].answer != Unanswered
        && Steady(reports[1..], reports[0].at, gap))
  }

  /** When an outcome last reported (or kept) at `last` must be gone: a retry window and a gap for
      every clock still to run out, and a gap to start it. */
  function GoneBy(o: Outcome, last: real, gap: real): real {
    var windows := if o.kind == Complete || o.kind == Fail then OUTCOME_RETRY_LIMIT_SECONDS + 2.0 * gap else 0.0;
    windows + OUTCOME_RETRY_LIMIT_SECONDS + gap
    + (if o.retryingSince.Some? then o.retryingSince.value else last + gap)
  }

  /** The clock of a kept outcome that was reported at `last` has not run out. */
  predicate Running(o: Outcome, last: real) {
    o.retryingSince.Some? ==> o.retryingSince.value <= last < o.retryingSince.value + OUTCOME_RETRY_LIMIT_SECONDS
  }

  lemma {:induction false} ReportLowersDeadline(o: Outcome, last: real, gap: real, sent: Sent)
    requires gap >= 0.0 && Running(o, last) && last <= sent.at <= last + gap && sent.answer != Unanswered
    ensures var next := AfterAnswer(o, sent);
            next.Some? ==> Running(next.value, sent.at) && GoneBy(next.value, sent.at, gap) <= GoneBy(o, last, gap)
  {
  }

  lemma {:induction false} GoneInTime(o: Outcome, last: real, gap: real, reports: seq<Sent>)
    requires gap >= 0.0 && Running(o, last) && Steady(reports, last, gap)
    requires reports != [] && reports[|reports| - 1].at >= GoneBy(o, last, gap)
    ensures DeliverAll(Some(o), reports).None?
    decreases |reports|
  {
    ReportLowersDeadline(o, last, gap, reports[0]);
    var next := AfterAnswer(o, reports[0]);
    if next.Some? {
      if |reports| > 1 {
        assert reports[1..][|reports| - 2] == reports[|reports| - 1];
        GoneInTime(next.value, reports[0].at, gap, reports[1..]);
      }
    }
  }

  /** With a server that answers every report, an outcome kept at `keptAt` is settled within two
      retry windows and four delivery gaps, whatever the answers are. */
  lemma {:induction false} SettledWithinTwoWindows(kind: Kind, body: string, keptAt: real, gap: real,
          reports: seq<Sent>)
    requires gap >= 0.0 && Steady(reports, keptAt, gap)
    requires reports != [] && reports[|reports| - 1].at >= keptAt + 2.0 * OUTCOME_RETRY_LIMIT_SECONDS + 4.0 * gap
    ensures DeliverAll(Some(Outcome(kind, body, None)), reports).None?
  {
    GoneInTime(Outcome(kind, body, None), keptAt, gap, reports);
  }
}
