/**
 * The stored log of one agent job across any number of requeues (app/api/agents.py).
 *
 * The agent numbers the lines of every run from 0, so a requeue must clear the lines of the run it
 * gives up; what a prune said about removed archives stays in front, at negative numbers. The
 * pattern that recognises such a line is not part of this model: it is a parameter.
 */
module JobLogs {
  import opened Wrappers

  datatype LogRow = LogRow(sequence: int, stream: string, message: string, createdAt: int, receivedAt: int)

  const REQUEUED_JOB_LOG_SEQUENCE := -1

  /** The two texts the handlers share with other code: which lines of a prune's output name a
      removed archive, and the note stored when a job is queued again. */
  datatype Wording = Wording(names: string -> bool, requeueNote: string)

  function Note(w: Wording, now: int): LogRow {
    LogRow(REQUEUED_JOB_LOG_SEQUENCE, "stdout", w.requeueNote, now, now)
  }

  // ---- Text

  /** The position of the first newline at or after `from`, or the length of the text. */
  function LineEnd(text: string, from: nat): (end: nat)
    requires from <= |text|
    ensures from <= end <= |text|
    ensures forall i :: from <= i < end ==> text[i] != '\n'
    ensures end < |text| ==> text[end] == '\n'
    decreases |text| - from
  {
    if from == |text| || text[from] == '\n' then from else LineEnd(text, from + 1)
  }

  /** The lines of a text; a newline at its very end opens no further line. */
  function SplitLines(text: string): (lines: seq<string>)
    ensures forall line :: line in lines ==> '\n' !in line
    decreases |text|
  {
    if text == "" then []
    else
      var end := LineEnd(text, 0);
      if end == |text| then [text] else [text[..end]] + SplitLines(text[end + 1..])
  }

  function JoinLines(lines: seq<string>): string {
    if lines == [] then ""
    else if |lines| == 1 then lines[0]
    else lines[0] + "\n" + JoinLines(lines[1..])
  }

  lemma {:induction false} LineEndOf(line: string, rest: string)
    requires '\n' !in line
    ensures LineEnd(line + rest, 0) >= |line|
    ensures rest != "" && rest[0] == '\n' ==> LineEnd(line + rest, 0) == |line|
  {
    var text := line + rest;
    assert forall i :: 0 <= i < |line| ==> text[i] == line[i] && line[i] in line;
    if rest != "" && rest[0] == '\n' {
      assert text[|line|] == '\n';
    }
  }

  lemma {:induction false} SplitFirst(line: string, rest: string)
    requires '\n' !in line
    ensures SplitLines(line + "\n" + rest) == [line] + SplitLines(rest)
  {
    var text := line + ("\n" + rest);
    assert text == line + "\n" + rest;
    LineEndOf(line, "\n" + rest);
    assert text[..|line|] == line && text[|line| + 1..] == rest;
  }

  lemma {:induction false} SplitJoin(lines: seq<string>)
    requires forall line :: line in lines ==> '\n' !in line && line != ""
    ensures SplitLines(JoinLines(lines)) == lines
  {
    if |lines| == 1 {
      LineEndOf(lines[0], "");
      assert lines[0] + "" == lines[0];
    } else if |lines| > 1 {
      SplitFirst(lines[0], JoinLines(lines[1..]));
      SplitJoin(lines[1..]);
    }
  }

  // ---- The table in sequence order

  /** `row` behind every row with a sequence up to its own. */
  function Place(rows: seq<LogRow>, row: LogRow): seq<LogRow> {
    if rows == [] then [row]
    else if row.sequence < rows[0].sequence then [row] + rows
    else [rows[0]] + Place(rows[1..], row)
  }

  /** The rows as `ORDER BY sequence, id` returns them; `table` is in insertion order. */
  function InOrder(table: seq<LogRow>): seq<LogRow> {
    if table == [] then [] else Place(InOrder(table[..|table| - 1]), table[|table| - 1])
  }

  predicate Unique(table: seq<LogRow>) {
    forall i, j :: 0 <= i < j < |table| ==> table[i].sequence != table[j].sequence
  }

  predicate Ascending(rows: seq<LogRow>) {
    forall i, j :: 0 <= i < j < |rows| ==> rows[i].sequence < rows[j].sequence
  }

  predicate Sorted(rows: seq<LogRow>) {
    forall i, j :: 0 <= i < j < |rows| ==> rows[i].sequence <= rows[j].sequence
  }

  lemma {:induction false} PlaceAdds(rows: seq<LogRow>, row: LogRow)
    ensures multiset(Place(rows, row)) == multiset(rows) + multiset{row}
  {
    if rows != [] {
      assert rows == [rows[0]] + rows[1..];
      if row.sequence >= rows[0].sequence {
        PlaceAdds(rows[1..], row);
      }
    }
  }

  lemma {:induction false} PlaceSorts(rows: seq<LogRow>, row: LogRow)
    requires Sorted(rows)
    ensures Sorted(Place(rows, row))
  {
    if rows != [] && row.sequence >= rows[0].sequence {
      var rest := Place(rows[1..], row);
      PlaceSorts(rows[1..], row);
      PlaceAdds(rows[1..], row);
      forall k | 0 <= k < |rest| ensures rows[0].sequence <= rest[k].sequence {
        assert rest[k] in multiset(rest);
        assert rest[k] == row || rest[k] in rows[1..];
      }
    }
  }

  lemma {:induction false} InOrderKeepsRows(table: seq<LogRow>)
    ensures multiset(InOrder(table)) == multiset(table)
    decreases |table|
  {
    if table != [] {
      var front, last := table[..|table| - 1], table[|table| - 1];
      InOrderKeepsRows(front);
      PlaceAdds(InOrder(front), last);
      assert table == front + [last];
    }
  }

  lemma {:induction false} InOrderIsSorted(table: seq<LogRow>)
    ensures Sorted(InOrder(table))
    decreases |table|
  {
    if table != [] {
      InOrderIsSorted(table[..|table| - 1]);
      PlaceSorts(InOrder(table[..|table| - 1]), table[|table| - 1]);
    }
  }

  /** The rows come back complete and in ascending order. */
  lemma {:induction false} InOrderSorts(table: seq<LogRow>)
    ensures multiset(InOrder(table)) == multiset(table) && Sorted(InOrder(table))
  {
    InOrderKeepsRows(table);
    InOrderIsSorted(table);
  }

  predicate Holds(table: seq<LogRow>, sequence: int) {
    exists i :: 0 <= i < |table| && table[i].sequence == sequence
  }

  // ---- Archive removals

  function Naming(lines: seq<string>, w: Wording): (named: seq<string>)
    ensures forall line :: line in named ==> line in lines && w.names(line)
  {
    if lines == [] then []
    else if w.names(lines[0]) then [lines[0]] + Naming(lines[1..], w)
    else Naming(lines[1..], w)
  }

  /** The lines that name a removed archive, in the order of `rows`. */
  function Removals(rows: seq<LogRow>, w: Wording): seq<string> {
    if rows == [] then [] else Naming(SplitLines(rows[0].message), w) + Removals(rows[1..], w)
  }

  /** A pattern that matches neither an empty line nor the note about the requeue. */
  predicate Sound(w: Wording) {
    !w.names("") && Naming(SplitLines(w.requeueNote), w) == []
  }

  // ---- The handlers

  /** `_kept_prune_lines` on rows already in sequence order. */
  function KeptLines(rows: seq<LogRow>, w: Wording): seq<LogRow> {
    if rows == [] then []
    else
      var named := Naming(SplitLines(rows[0].message), w);
      if named == [] then KeptLines(rows[1..], w)
      else [rows[0].(message := JoinLines(named))] + KeptLines(rows[1..], w)
  }

  function Renumbered(kept: seq<LogRow>): seq<LogRow> {
    seq(|kept|, i requires 0 <= i < |kept| => kept[i].(sequence := REQUEUED_JOB_LOG_SEQUENCE - |kept| + i))
  }

  /** `_reset_requeued_agent_job_log`: the table after the requeue of a job. */
  function ResetLog(prune: bool, table: seq<LogRow>, w: Wording, now: int): seq<LogRow> {
    if table == [] then []
    else Renumbered(if prune then KeptLines(InOrder(table), w) else []) + [Note(w, now)]
  }

  /** `_append_agent_job_log`: a known number is a duplicate. */
  function AppendLine(table: seq<LogRow>, row: LogRow): seq<LogRow> {
    if Holds(table, row.sequence) then table else table + [row]
  }

  /** `_is_superseded_attempt`; a line without an attempt is taken. */
  predicate Superseded(claim: Option<int>, attempt: Option<int>) {
    attempt.Some? && claim != attempt
  }

  // ---- Runs

  /**
   * A job is dispatched, a line of its run number `run` arrives over the session, or the job goes
   * back on the queue, which it may do without having been dispatched since it last did: a start
   * report moves a queued job to running. An agent echoes the claim time of the dispatch a line
   * belongs to. A line uploaded over REST takes two steps: its handler reads the job and the table,
   * and commits. A late acknowledgement writes a claim of its own on a queued job; so does a start
   * report whose handler had loaded the job without a claim, on a queued job or, if the dispatch
   * came in between, over the claim of the dispatch. JobClaims says which transactions these are.
   */
  datatype Event =
    | Dispatched(at: int)
    | Arrived(run: nat, row: LogRow)
    | UploadRead(run: nat, row: LogRow)
    | UploadCommit(upload: nat)
    | ReportClaims(at: int)
    | PutBack(now: int)

  /** The database: the rows, and the claim time that names the attempt in progress. */
  datatype Store = Store(table: seq<LogRow>, claim: Option<int>)

  /** What happened, by run: when each run was dispatched, whether the last one is still the one the
      server waits for, whether a start report has written over its claim, and the first line to
      arrive for every number of a run while it was. */
  datatype Ledger = Ledger(
    dispatches: seq<int>, live: bool, overwritten: bool, finished: seq<seq<LogRow>>, current: seq<LogRow>)

  /** An upload between its read and its commit, and how often the job had been put back when its
      handler read it. */
  datatype Upload = Upload(run: nat, row: LogRow, requeues: nat)

  datatype System = System(store: Store, ledger: Ledger, uploads: seq<Upload>)

  const EMPTY := System(Store([], None), Ledger([], false, false, [], []), [])

  function Without(uploads: seq<Upload>, k: nat): seq<Upload>
    requires k < |uploads|
  {
    uploads[..k] + uploads[k + 1..]
  }

  /** A line of the given run counts while that run is the one the server waits for. */
  function Credit(ledger: Ledger, run: nat, row: LogRow): Ledger {
    if ledger.live && run == |ledger.dispatches| - 1 then ledger.(current := AppendLine(ledger.current, row))
        else ledger
  }

  /** Jobs are dispatched from the queue; times only grow; an agent numbers its lines from 0. */
  predicate Possible(s: System, e: Event) {
    match e
    case Dispatched(at) => !s.ledger.live && Later(s.ledger, at)
    case Arrived(run, row) => run < |s.ledger.dispatches| && 0 <= row.sequence
    case UploadRead(run, row) => run < |s.ledger.dispatches| && 0 <= row.sequence
    case UploadCommit(k) => k < |s.uploads|
    case ReportClaims(at) => Later(s.ledger, at)
    case PutBack(_) => true
  }

  predicate Later(ledger: Ledger, at: int) {
    forall i :: 0 <= i < |ledger.dispatches| ==> ledger.dispatches[i] < at
  }

  function Step(prune: bool, w: Wording, s: System, e: Event): System
    requires Possible(s, e)
  {
    match e
    case Dispatched(at) =>
      s.(store := s.store.(claim := Some(at)),
         ledger := s.ledger.(dispatches := s.ledger.dispatches + [at], live := true, overwritten := false))
    case Arrived(run, row) =>
      var table := if Superseded(s.store.claim, Some(s.ledger.dispatches[run])) then s.store.table
                   else AppendLine(s.store.table, row);
      s.(store := s.store.(table := table), ledger := Credit(s.ledger, run, row))
    case UploadRead(run, row) =>
      if Superseded(s.store.claim, Some(s.ledger.dispatches[run])) then s.(ledger := Credit(s.ledger, run, row))
      else if Holds(s.store.table, row.sequence) then s
      else s.(uploads := s.uploads + [Upload(run, row, |s.ledger.finished|)])
    case UploadCommit(k) =>
      var u := s.uploads[k];
      System(s.store.(table := AppendLine(s.store.table, u.row)), Credit(s.ledger, u.run, u.row), Without(s.uploads, k))
    case ReportClaims(at) =>
      s.(store := s.store.(claim := Some(at)), ledger := s.ledger.(overwritten := s.ledger.live))
    case PutBack(now) =>
      s.(store := Store(ResetLog(prune, s.store.table, w, now), None),
         ledger := s.ledger.(live := false, overwritten := false,
                             finished := s.ledger.finished + [s.ledger.current], current := []))
  }

  predicate PossibleRun(prune: bool, w: Wording, s: System, es: seq<Event>)
    decreases |es|
  {
    es == [] || (Possible(s, es[0]) && PossibleRun(prune, w, Step(prune, w, s, es[0]), es[1..]))
  }

  function Play(prune: bool, w: Wording, s: System, es: seq<Event>): System
    requires PossibleRun(prune, w, s, es)
    decreases |es|
  {
    if es == [] then s else Play(prune, w, Step(prune, w, s, es[0]), es[1..])
  }

  /** An upload commits a new number although the job was put back after its handler had read it. */
  predicate Misfiles(s: System, e: Event) {
    && e.UploadCommit? && e.upload < |s.uploads|
    && s.uploads[e.upload].requeues < |s.ledger.finished|
    && !Holds(s.store.table, s.uploads[e.upload].row.sequence)
  }

  /** A new line of the run in progress arrives after a start report wrote over that run's claim. */
  predicate Drops(s: System, e: Event) {
    && (e.Arrived? || e.UploadRead?)
    && s.ledger.overwritten && e.run == |s.ledger.dispatches| - 1
    && !Holds(s.ledger.current, e.row.sequence)
  }

  predicate Undisturbed(prune: bool, w: Wording, s: System, es: seq<Event>)
    requires PossibleRun(prune, w, s, es)
    decreases |es|
  {
    es == [] || (!Misfiles(s, es[0]) && !Drops(s, es[0]) && Undisturbed(prune, w, Step(prune, w, s, es[0]), es[1..]))
  }

  /** The rows from 0 on are exactly the lines of the run in progress. */
  ghost predicate OnlyCurrent(s: System) {
    forall row: LogRow :: row in s.store.table && 0 <= row.sequence <==> row in s.ledger.current
  }

  ghost predicate AlwaysOnlyCurrent(prune: bool, w: Wording, s: System, es: seq<Event>)
    requires PossibleRun(prune, w, s, es)
    decreases |es|
  {
    OnlyCurrent(s) && (es == [] || AlwaysOnlyCurrent(prune, w, Step(prune, w, s, es[0]), es[1..]))
  }

  /** The removals of a list of runs, run after run, each in sequence order. */
  function RemovalsOf(runs: seq<seq<LogRow>>, w: Wording): seq<string> {
    if runs == [] then []
    else RemovalsOf(runs[..|runs| - 1], w) + Removals(InOrder(runs[|runs| - 1]), w)
  }

  /** The rows a requeue left in front of the current run. */
  predicate Preamble(prune: bool, w: Wording, kept: seq<LogRow>, finished: seq<seq<LogRow>>) {
    && Ascending(kept)
    && (forall i :: 0 <= i < |kept| ==> kept[i].sequence < 0)
    && (kept != [] ==>
          && kept[|kept| - 1].sequence == REQUEUED_JOB_LOG_SEQUENCE
          && kept[|kept| - 1].message == w.requeueNote)
    && (if prune then Removals(kept, w) == RemovalsOf(finished, w) else |kept| <= 1)
  }

  predicate Current(rows: seq<LogRow>) {
    Unique(rows) && forall i :: 0 <= i < |rows| ==> 0 <= rows[i].sequence
  }

  predicate NamesNoRun(claim: Option<int>, ledger: Ledger) {
    forall i :: 0 <= i < |ledger.dispatches| ==> claim != Some(ledger.dispatches[i])
  }

  /** The claim names the run in progress, or no run at all. */
  predicate ClaimNamesRun(store: Store, ledger: Ledger) {
    && (forall i, j :: 0 <= i < j < |ledger.dispatches| ==> ledger.dispatches[i] < ledger.dispatches[j])
    && (ledger.live ==> ledger.dispatches != []) && (ledger.overwritten ==> ledger.live)
    && (ledger.live && !ledger.overwritten ==> store.claim == Some(ledger.dispatches[|ledger.dispatches| - 1]))
    && (!ledger.live || ledger.overwritten ==> NamesNoRun(store.claim, ledger))
  }

  /** The table is a preamble followed by exactly the lines of the current run. */
  ghost predicate Shape(prune: bool, w: Wording, table: seq<LogRow>, finished: seq<seq<LogRow>>, current: seq<LogRow>) {
    && Current(current)
    && exists kept: seq<LogRow> :: table == kept + current && Preamble(prune, w, kept, finished)
  }

  /** An upload belongs to the run in progress exactly if the job has not been put back since its
      handler read it. */
  predicate UploadsOk(s: System) {
    forall i :: 0 <= i < |s.uploads| ==> UploadOk(s.ledger, s.uploads[i])
  }

  predicate UploadOk(ledger: Ledger, u: Upload) {
    && 0 <= u.row.sequence && u.run < |ledger.dispatches| && u.requeues <= |ledger.finished|
    && (u.requeues == |ledger.finished| <==> ledger.live && u.run == |ledger.dispatches| - 1)
  }

  ghost predicate Inv(prune: bool, w: Wording, s: System) {
    && ClaimNamesRun(s.store, s.ledger) && UploadsOk(s)
    && Shape(prune, w, s.store.table, s.ledger.finished, s.ledger.current)
  }

  // ---- Proofs

  lemma {:induction false} PlaceLast(rows: seq<LogRow>, row: LogRow)
    requires forall i :: 0 <= i < |rows| ==> rows[i].sequence <= row.sequence
    ensures Place(rows, row) == rows + [row]
  {
    if rows != [] {
      PlaceLast(rows[1..], row);
      assert [rows[0]] + (rows[1..] + [row]) == rows + [row];
    }
  }

  lemma {:induction false} PlaceBehind(front: seq<LogRow>, rows: seq<LogRow>, row: LogRow)
    requires forall i :: 0 <= i < |front| ==> front[i].sequence <= row.sequence
    ensures Place(front + rows, row) == front + Place(rows, row)
  {
    if front == [] {
      assert front + rows == rows;
    } else {
      PlaceBehind(front[1..], rows, row);
      assert (front + rows)[1..] == front[1..] + rows;
    }
  }

  lemma {:induction false} AscendingIsInOrder(rows: seq<LogRow>)
    requires Ascending(rows)
    ensures InOrder(rows) == rows
    decreases |rows|
  {
    if rows != [] {
      var front, last := rows[..|rows| - 1], rows[|rows| - 1];
      AscendingIsInOrder(front);
      PlaceLast(front, last);
      assert front + [last] == rows;
    }
  }

  /** Ordering the table orders the current run behind the preamble. */
  lemma {:induction false} InOrderSplits(kept: seq<LogRow>, rows: seq<LogRow>)
    requires Ascending(kept) && forall i :: 0 <= i < |kept| ==> kept[i].sequence < 0
    requires forall i :: 0 <= i < |rows| ==> 0 <= rows[i].sequence
    ensures InOrder(kept + rows) == kept + InOrder(rows)
    decreases |rows|
  {
    if rows == [] {
      assert kept + rows == kept;
      AscendingIsInOrder(kept);
    } else {
      var front, last := rows[..|rows| - 1], rows[|rows| - 1];
      InOrderSplits(kept, front);
      assert (kept + rows)[..|kept + rows| - 1] == kept + front;
      PlaceBehind(kept, InOrder(front), last);
    }
  }

  lemma {:induction false} Regroup(a: seq<string>, b: seq<string>, c: seq<string>)
    ensures a + (b + c) == a + b + c
  {
  }

  lemma {:induction false} RemovalsAppend(a: seq<LogRow>, b: seq<LogRow>, w: Wording)
    ensures Removals(a + b, w) == Removals(a, w) + Removals(b, w)
  {
    if a == [] {
      assert a + b == b;
    } else {
      var first := Naming(SplitLines(a[0].message), w);
      RemovalsAppend(a[1..], b, w);
      assert (a + b)[1..] == a[1..] + b;
      Regroup(first, Removals(a[1..], w), Removals(b, w));
    }
  }

  lemma {:induction false} NamingTwice(lines: seq<string>, w: Wording)
    ensures Naming(Naming(lines, w), w) == Naming(lines, w)
  {
    if lines != [] {
      NamingTwice(lines[1..], w);
      if w.names(lines[0]) {
        assert ([lines[0]] + Naming(lines[1..], w))[1..] == Naming(lines[1..], w);
      }
    }
  }

  lemma {:induction false} KeepingLosesNothing(rows: seq<LogRow>, w: Wording)
    requires !w.names("")
    ensures Removals(KeptLines(rows, w), w) == Removals(rows, w)
  {
    if rows != [] {
      KeepingLosesNothing(rows[1..], w);
      NamingTwice(SplitLines(rows[0].message), w);
      SplitJoin(Naming(SplitLines(rows[0].message), w));
      var kept := KeptLines(rows[1..], w);
      var named := Naming(SplitLines(rows[0].message), w);
      if named != [] {
        assert ([rows[0].(message := JoinLines(named))] + kept)[1..] == kept;
      }
    }
  }

  lemma {:induction false} SameTextSameRemovals(a: seq<LogRow>, b: seq<LogRow>, w: Wording)
    requires |a| == |b| && forall i :: 0 <= i < |a| ==> a[i].message == b[i].message
    ensures Removals(a, w) == Removals(b, w)
  {
    if a != [] {
      SameTextSameRemovals(a[1..], b[1..], w);
    }
  }

  lemma {:induction false} RenumberedRemovals(rows: seq<LogRow>, w: Wording)
    requires Sound(w)
    ensures Removals(Renumbered(KeptLines(rows, w)), w) == Removals(rows, w)
  {
    KeepingLosesNothing(rows, w);
    SameTextSameRemovals(Renumbered(KeptLines(rows, w)), KeptLines(rows, w), w);
  }

  lemma {:induction false} NoteNamesNothing(rows: seq<LogRow>, w: Wording, now: int)
    requires Sound(w)
    ensures Removals(rows + [Note(w, now)], w) == Removals(rows, w)
  {
    RemovalsAppend(rows, [Note(w, now)], w);
    assert Removals([Note(w, now)], w) == [];
  }

  /** A reset keeps every removal the table named, and nothing else that could name one. */
  lemma {:induction false} ResetKeepsRemovals(prune: bool, table: seq<LogRow>, w: Wording, now: int)
    requires Sound(w)
    ensures var t := ResetLog(prune, table, w, now);
            && Ascending(t)
            && (forall i :: 0 <= i < |t| ==> t[i].sequence < 0)
            && (t != [] ==> t[|t| - 1] == Note(w, now))
            && (if prune then Removals(t, w) == Removals(InOrder(table), w) else |t| <= 1)
  {
    if table != [] && prune {
      var kept := KeptLines(InOrder(table), w);
      RenumberedRemovals(InOrder(table), w);
      NoteNamesNothing(Renumbered(kept), w, now);
    }
  }

  lemma {:induction false} AppendBehind(kept: seq<LogRow>, current: seq<LogRow>, row: LogRow)
    requires Current(current) && 0 <= row.sequence
    requires forall i :: 0 <= i < |kept| ==> kept[i].sequence < 0
    ensures AppendLine(kept + current, row) == kept + AppendLine(current, row)
    ensures Current(AppendLine(current, row))
  {
    var table := kept + current;
    if Holds(table, row.sequence) {
      var i :| 0 <= i < |table| && table[i].sequence == row.sequence;
      assert current[i - |kept|].sequence == row.sequence;
    } else {
      forall i | 0 <= i < |current| ensures current[i].sequence != row.sequence {
        assert table[|kept| + i] == current[i];
      }
      assert table + [row] == kept + (current + [row]);
    }
  }

  lemma {:induction false} ArrivalKeepsShape(prune: bool, w: Wording, table: seq<LogRow>, finished: seq<seq<LogRow>>,
          current: seq<LogRow>, row: LogRow)
    requires Shape(prune, w, table, finished, current) && 0 <= row.sequence
    ensures Shape(prune, w, AppendLine(table, row), finished, AppendLine(current, row))
  {
    var kept :| table == kept + current && Preamble(prune, w, kept, finished);
    AppendBehind(kept, current, row);
  }

  /** The order of a table in shape: the preamble, then the current run. */
  lemma {:induction false} ShapeInOrder(prune: bool, w: Wording, table: seq<LogRow>, finished: seq<seq<LogRow>>,
          current: seq<LogRow>)
    requires Shape(prune, w, table, finished, current)
    ensures Unique(table) && |table| >= |current|
    ensures forall row :: row in table && 0 <= row.sequence <==> row in current
    ensures if prune then Removals(InOrder(table), w) == RemovalsOf(finished, w) + Removals(InOrder(current), w)
            else |table| <= |current| + 1
  {
    var kept :| table == kept + current && Preamble(prune, w, kept, finished);
    InOrderSplits(kept, current);
    RemovalsAppend(kept, InOrder(current), w);
  }

  lemma {:induction false} PreambleAlone(prune: bool, w: Wording, kept: seq<LogRow>, finished: seq<seq<LogRow>>)
    requires Preamble(prune, w, kept, finished)
    ensures Shape(prune, w, kept, finished, [])
  {
    assert kept == kept + [];
  }

  lemma {:induction false} PutBackKeepsShape(prune: bool, w: Wording, table: seq<LogRow>, finished: seq<seq<LogRow>>,
          current: seq<LogRow>, now: int)
    requires Sound(w)
    requires Shape(prune, w, table, finished, current)
    ensures Shape(prune, w, ResetLog(prune, table, w, now), finished + [current], [])
  {
    var kept := ResetLog(prune, table, w, now);
    assert Preamble(prune, w, kept, finished + [current]) by {
      ResetKeepsRemovals(prune, table, w, now);
      if prune {
        ShapeInOrder(prune, w, table, finished, current);
        assert (finished + [current])[..|finished|] == finished;
      }
    }
    PreambleAlone(prune, w, kept, finished + [current]);
  }

  lemma {:induction false} UploadsStayOk(prune: bool, w: Wording, s: System, e: Event)
    requires ClaimNamesRun(s.store, s.ledger) && UploadsOk(s) && Possible(s, e)
    ensures ClaimNamesRun(Step(prune, w, s, e).store, Step(prune, w, s, e).ledger) && UploadsOk(Step(prune, w, s, e))
  {
    var t := Step(prune, w, s, e);
    forall i | 0 <= i < |t.uploads| ensures UploadOk(t.ledger, t.uploads[i]) {
      if e.UploadCommit? {
        assert t.uploads[i] == s.uploads[if i < e.upload then i else i + 1];
      } else if i < |s.uploads| {
        assert t.uploads[i] == s.uploads[i] && UploadOk(s.ledger, s.uploads[i]);
      }
    }
  }

  lemma {:induction false} CommitKeepsShape(prune: bool, w: Wording, s: System, k: nat)
    requires Inv(prune, w, s) && k < |s.uploads| && !Misfiles(s, UploadCommit(k))
    ensures var u := s.uploads[k];
            Shape(prune, w, AppendLine(s.store.table, u.row), Credit(s.ledger, u.run, u.row).finished,
                Credit(s.ledger, u.run, u.row).current)
  {
    var u := s.uploads[k];
    assert UploadOk(s.ledger, u);
    if u.requeues == |s.ledger.finished| {
      ArrivalKeepsShape(prune, w, s.store.table, s.ledger.finished, s.ledger.current, u.row);
    }
  }

  lemma {:induction false} LineKeepsShape(prune: bool, w: Wording, s: System, run: nat, row: LogRow)
    requires Inv(prune, w, s) && Possible(s, Arrived(run, row)) && !Drops(s, Arrived(run, row))
    ensures var t := Step(prune, w, s, Arrived(run, row));
            Shape(prune, w, t.store.table, t.ledger.finished, t.ledger.current)
  {
    if s.ledger.live && run == |s.ledger.dispatches| - 1 && !s.ledger.overwritten {
      ArrivalKeepsShape(prune, w, s.store.table, s.ledger.finished, s.ledger.current, row);
    }
  }

  lemma {:induction false} StepKeepsInv(prune: bool, w: Wording, s: System, e: Event)
    requires Sound(w)
    requires Inv(prune, w, s) && Possible(s, e) && !Misfiles(s, e) && !Drops(s, e)
    ensures Inv(prune, w, Step(prune, w, s, e))
  {
    UploadsStayOk(prune, w, s, e);
    match e {
      case Dispatched(at) =>
      case Arrived(run, row) => LineKeepsShape(prune, w, s, run, row);
      case UploadRead(run, row) =>
      case ReportClaims(at) =>
      case UploadCommit(k) => CommitKeepsShape(prune, w, s, k);
      case PutBack(now) => PutBackKeepsShape(prune, w, s.store.table, s.ledger.finished, s.ledger.current, now);
    }
  }

  lemma {:induction false} EveryRunKeepsInv(prune: bool, w: Wording, s: System, es: seq<Event>)
    requires Sound(w)
    requires Inv(prune, w, s) && PossibleRun(prune, w, s, es) && Undisturbed(prune, w, s, es)
    ensures Inv(prune, w, Play(prune, w, s, es))
    decreases |es|
  {
    if es != [] {
      StepKeepsInv(prune, w, s, es[0]);
      EveryRunKeepsInv(prune, w, Step(prune, w, s, es[0]), es[1..]);
    }
  }

  lemma {:induction false} EmptyIsInv(prune: bool, w: Wording)
    ensures Inv(prune, w, EMPTY)
  {
    assert EMPTY.store.table == [] + EMPTY.ledger.current;
    assert Preamble(prune, w, [], []);
  }

  /**
   * Across any number of requeues, as long as no line was misfiled or dropped: sequence numbers stay unique,
   * the rows from 0 on are exactly the lines of the run in progress (no line of a superseded
   * attempt among them), and in sequence order a prune's rows name the removals of every earlier
   * run, run after run, followed by the current one's. Any other job keeps at most the note.
   */
  lemma {:induction false} LogsAcrossRequeues(prune: bool, w: Wording, es: seq<Event>)
    requires Sound(w) && PossibleRun(prune, w, EMPTY, es) && Undisturbed(prune, w, EMPTY, es)
    ensures var s := Play(prune, w, EMPTY, es);
            && Unique(s.store.table)
            && OnlyCurrent(s)
            && (prune ==> Removals(InOrder(s.store.table), w)
                          == RemovalsOf(s.ledger.finished, w) + Removals(InOrder(s.ledger.current), w))
            && (!prune ==> |s.store.table| <= |s.ledger.current| + 1)
  {
    EmptyIsInv(prune, w);
    EveryRunKeepsInv(prune, w, EMPTY, es);
    var s := Play(prune, w, EMPTY, es);
    ShapeInOrder(prune, w, s.store.table, s.ledger.finished, s.ledger.current);
  }

  // ---- Exactly when a line of a given-up run is stored as the current run's

  lemma {:induction false} MisfiledIsForeign(prune: bool, w: Wording, s: System, e: Event)
    requires Inv(prune, w, s) && Possible(s, e) && Misfiles(s, e)
    ensures !OnlyCurrent(Step(prune, w, s, e))
  {
    var u := s.uploads[e.upload];
    assert UploadOk(s.ledger, u);
    ShapeInOrder(prune, w, s.store.table, s.ledger.finished, s.ledger.current);
    var t := Step(prune, w, s, e);
    assert t.store.table == s.store.table + [u.row] && u.row in t.store.table;
    if u.row in s.ledger.current {
      assert u.row in s.store.table;
      assert Holds(s.store.table, u.row.sequence);
    }
  }

  lemma {:induction false} DroppedIsMissing(prune: bool, w: Wording, s: System, e: Event)
    requires Inv(prune, w, s) && Possible(s, e) && Drops(s, e)
    ensures !OnlyCurrent(Step(prune, w, s, e))
  {
    ShapeInOrder(prune, w, s.store.table, s.ledger.finished, s.ledger.current);
    var t := Step(prune, w, s, e);
    assert t.store.table == s.store.table && t.ledger.current == s.ledger.current + [e.row];
    assert e.row in t.ledger.current;
  }

  lemma {:induction false} OnlyCurrentExactlyFrom(prune: bool, w: Wording, s: System, es: seq<Event>)
    requires Sound(w) && Inv(prune, w, s) && PossibleRun(prune, w, s, es)
    ensures AlwaysOnlyCurrent(prune, w, s, es) <==> Undisturbed(prune, w, s, es)
    decreases |es|
  {
    ShapeInOrder(prune, w, s.store.table, s.ledger.finished, s.ledger.current);
    if es != [] {
      if Misfiles(s, es[0]) {
        MisfiledIsForeign(prune, w, s, es[0]);
      } else if Drops(s, es[0]) {
        DroppedIsMissing(prune, w, s, es[0]);
      } else {
        StepKeepsInv(prune, w, s, es[0]);
        OnlyCurrentExactlyFrom(prune, w, Step(prune, w, s, es[0]), es[1..]);
      }
    }
  }

  /** Over all runs, both transports: the rows from 0 on are the current run's lines in every state,
      if and only if no upload that committed a new number had the job put back between its read and
      its commit, and no new line of the current run came after a start report had written over that
      run's claim. */
  lemma {:induction false} OnlyCurrentExactly(prune: bool, w: Wording, es: seq<Event>)
    requires Sound(w) && PossibleRun(prune, w, EMPTY, es)
    ensures AlwaysOnlyCurrent(prune, w, EMPTY, es) <==> Undisturbed(prune, w, EMPTY, es)
  {
    EmptyIsInv(prune, w);
    OnlyCurrentExactlyFrom(prune, w, EMPTY, es);
  }

  lemma {:induction false} StaysUnique(prune: bool, w: Wording, s: System, es: seq<Event>)
    requires Sound(w) && PossibleRun(prune, w, s, es) && Unique(s.store.table)
    ensures Unique(Play(prune, w, s, es).store.table)
    decreases |es|
  {
    if es != [] {
      if es[0].PutBack? {
        ResetKeepsRemovals(prune, s.store.table, w, es[0].now);
      }
      StaysUnique(prune, w, Step(prune, w, s, es[0]), es[1..]);
    }
  }

  /** Stored sequence numbers are unique in every run, disturbed or not. */
  lemma {:induction false} NumbersStayUnique(prune: bool, w: Wording, es: seq<Event>)
    requires Sound(w) && PossibleRun(prune, w, EMPTY, es)
    ensures Unique(Play(prune, w, EMPTY, es).store.table)
  {
    StaysUnique(prune, w, EMPTY, es);
  }

  /** The first half of the race: an upload read under the first attempt, which is then given up. */
  lemma {:induction false} UploadIsOvertaken(stale: LogRow, w: Wording)
    requires stale.sequence == 0
    ensures var es := [Dispatched(1), UploadRead(0, stale), PutBack(2)];
            PossibleRun(false, w, EMPTY, es)
            && Play(false, w, EMPTY, es)
               == System(Store([], None), Ledger([1], false, false, [[]], []), [Upload(0, stale, 0)])
  {
    var es := [Dispatched(1), UploadRead(0, stale), PutBack(2)];
    var s1 := Step(false, w, EMPTY, es[0]);
    var s2 := Step(false, w, s1, es[1]);
    assert s2 == System(Store([], Some(1)), Ledger([1], true, false, [], []), [Upload(0, stale, 0)]);
    var s3 := Step(false, w, s2, es[2]);
    PlayTail(false, w, s2, es, 2);
    PlayTail(false, w, s1, es, 1);
    PlayTail(false, w, EMPTY, es, 0);
    assert es[0..] == es && es[3..] == [];
  }

  /** The second half: the next attempt is dispatched, the upload commits, and the attempt's own line
      0 is taken for a duplicate. */
  lemma {:induction false} OvertakenIsMisfiled(stale: LogRow, own: LogRow, w: Wording, s: System)
    requires stale.sequence == own.sequence == 0
    requires s == System(Store([], None), Ledger([1], false, false, [[]], []), [Upload(0, stale, 0)])
    ensures var es := [Dispatched(3), UploadCommit(0), Arrived(1, own)];
            PossibleRun(false, w, s, es)
            && Play(false, w, s, es).store.table == [stale] && Play(false, w, s, es).ledger.current == [own]
  {
    var es := [Dispatched(3), UploadCommit(0), Arrived(1, own)];
    var s4 := Step(false, w, s, es[0]);
    var s5 := Step(false, w, s4, es[1]);
    assert s5 == System(Store([stale], Some(3)), Ledger([1, 3], true, false, [[]], []), []);
    assert s5.store.table[0].sequence == own.sequence;
    PlayTail(false, w, s5, es, 2);
    PlayTail(false, w, s4, es, 1);
    PlayTail(false, w, s, es, 0);
    assert es[0..] == es && es[3..] == [];
  }

  lemma {:induction false} PlayOn(prune: bool, w: Wording, s: System, first: seq<Event>, second: seq<Event>)
    requires PossibleRun(prune, w, s, first) && PossibleRun(prune, w, Play(prune, w, s, first), second)
    ensures PossibleRun(prune, w, s, first + second)
    ensures Play(prune, w, s, first + second) == Play(prune, w, Play(prune, w, s, first), second)
    decreases |first|
  {
    if first == [] {
      assert first + second == second;
    } else {
      assert (first + second)[1..] == first[1..] + second;
      PlayOn(prune, w, Step(prune, w, s, first[0]), first[1..], second);
    }
  }

  /** A run in which an upload is misfiled, and the new run's own line 0 is lost. */
  lemma {:induction false} UploadRace(stale: LogRow, own: LogRow, w: Wording) returns (es: seq<Event>)
    requires stale.sequence == own.sequence == 0 && stale != own
    ensures PossibleRun(false, w, EMPTY, es) && |es| == 6
    ensures es[1] == UploadRead(0, stale) && es[2].PutBack? && es[4] == UploadCommit(0) && es[5] == Arrived(1, own)
    ensures var s := Play(false, w, EMPTY, es); s.store.table == [stale] && s.ledger.current == [own]
  {
    var first := [Dispatched(1), UploadRead(0, stale), PutBack(2)];
    var second := [Dispatched(3), UploadCommit(0), Arrived(1, own)];
    UploadIsOvertaken(stale, w);
    OvertakenIsMisfiled(stale, own, w, Play(false, w, EMPTY, first));
    PlayOn(false, w, EMPTY, first, second);
    es := first + second;
  }

  lemma {:induction false} PlayTail(prune: bool, w: Wording, s: System, es: seq<Event>, k: nat)
    requires k < |es| && Possible(s, es[k]) && PossibleRun(prune, w, Step(prune, w, s, es[k]), es[k + 1..])
    ensures PossibleRun(prune, w, s, es[k..])
            && Play(prune, w, s, es[k..]) == Play(prune, w, Step(prune, w, s, es[k]), es[k + 1..])
  {
    assert es[k..][1..] == es[k + 1..];
  }

  /** A run in which a line is dropped: a start report whose handler loaded the job while it was
      queued writes its claim over that of the dispatch, and the run's own line is superseded. */
  lemma {:induction false} StartClaimDropsLines(row: LogRow, w: Wording) returns (es: seq<Event>)
    requires row.sequence == 0
    ensures PossibleRun(false, w, EMPTY, es) && es == [Dispatched(1), ReportClaims(2), Arrived(0, row)]
    ensures var s := Play(false, w, EMPTY, es); s.store.table == [] && s.ledger.current == [row]
  {
    es := [Dispatched(1), ReportClaims(2), Arrived(0, row)];
    var s1 := Step(false, w, EMPTY, es[0]);
    var s2 := Step(false, w, s1, es[1]);
    assert s2 == System(Store([], Some(2)), Ledger([1], true, true, [], []), []);
    var s3 := Step(false, w, s2, es[2]);
    PlayTail(false, w, s2, es, 2);
    PlayTail(false, w, s1, es, 1);
    PlayTail(false, w, EMPTY, es, 0);
    assert es[0..] == es && es[3..] == [];
  }
}
