/**
 * Log lines that arrive after their job has finished (`_complete_finished_operation_log`). The
 * operation's log file was written from the rows present at completion; every later line is
 * appended when it is the last, and rewrites the file from all rows when it is not.
 */
module LateLines {
  import opened Wrappers
  import opened JobLogs

  function Messages(rows: seq<LogRow>): seq<string> {
    seq(|rows|, i requires 0 <= i < |rows| => rows[i].message)
  }

  /** `_collect_agent_logs`: the messages of all rows in sequence order, joined by newlines. */
  function Collect(table: seq<LogRow>): string {
    JoinLines(Messages(InOrder(table)))
  }

  predicate LaterRow(table: seq<LogRow>, sequence: int) {
    exists i :: 0 <= i < |table| && table[i].sequence > sequence
  }

  /** The log file of a maintenance operation; it is gone once log retention has removed it. */
  class LogFile {
    var present: bool
    var text: string

    constructor (text: string)
      ensures present && this.text == text
    {
      this.present, this.text := true, text;
    }

    /** Add the line that was just committed as the last row of `table`, unless the job is still
        active, its failure was deferred to another attempt, or its operation names no log. */
    method CompleteFinishedLog(table: seq<LogRow>, row: LogRow, final: bool, deferred: bool, named: bool)
      modifies this
      ensures present == old(present)
      ensures !final || deferred || !named || !present ==> text == old(text)
      ensures final && !deferred && named && present ==>
                text == if LaterRow(table + [row], row.sequence) then Collect(table + [row])
                    else Appended(old(text), row.message)
      ensures final && !deferred && named && present && NonEmpty(table) && old(text) == Collect(table) ==>
                text == Collect(table + [row])
    {
      if !final || deferred || !named {
        return;
      }
      var rows := table + [row];
      var outOfOrder := false;
      for i := 0 to |rows|
        invariant outOfOrder <==> exists k :: 0 <= k < i && rows[k].sequence > row.sequence
      {
        if rows[i].sequence > row.sequence {
          outOfOrder := true;
        }
      }
      LastOrNot(table, row);
      if !outOfOrder {
        if !present {
          return;
        }
        if NonEmpty(table) && text == Collect(table) {
          LineKeepsText(table, row);
        }
        text := text + (if text != "" then "\n" else "") + row.message;
        return;
      }
      if !present {
        return;
      }
      text := Collect(rows);
    }
  }

  function Appended(text: string, message: string): string {
    text + (if text != "" then "\n" else "") + message
  }

  // ---- Appending is rebuilding

  lemma {:induction false} JoinLast(lines: seq<string>, line: string)
    ensures JoinLines(lines + [line]) == if lines == [] then line else JoinLines(lines) + "\n" + line
  {
    if |lines| == 1 {
      assert (lines + [line])[1..] == [line];
    } else if |lines| > 1 {
      JoinLast(lines[1..], line);
      assert (lines + [line])[1..] == lines[1..] + [line];
    }
  }

  lemma {:induction false} CollectLast(table: seq<LogRow>, row: LogRow)
    requires !LaterRow(table, row.sequence)
    ensures Collect(table + [row]) == if table == [] then row.message else Collect(table) + "\n" + row.message
  {
    var rows := InOrder(table);
    InOrderSorts(table);
    forall i | 0 <= i < |rows| ensures rows[i].sequence <= row.sequence {
      assert rows[i] in multiset(table);
      var k :| 0 <= k < |table| && table[k] == rows[i];
    }
    PlaceLast(rows, row);
    assert (table + [row])[..|table|] == table;
    assert Messages(rows + [row]) == Messages(rows) + [row.message];
    JoinLast(Messages(rows), row.message);
    assert |multiset(rows)| == |multiset(table)|;
  }

  /** Appending the last line gives the file a rebuild would give exactly when the file is not
      empty, or there was no line before it: one leading empty line loses its newline. */
  lemma {:induction false} AppendIsRebuildExactly(table: seq<LogRow>, row: LogRow)
    requires !LaterRow(table, row.sequence)
    ensures Appended(Collect(table), row.message) == Collect(table + [row]) <==> (table == [] || Collect(table) != "")
  {
    CollectLast(table, row);
    if table == [] {
      assert Collect(table) == "";
    } else if Collect(table) == "" {
      assert |Appended("", row.message)| < |Collect(table + [row])|;
    }
  }

  lemma {:induction false} EmptyFirstLineLosesItsNewline()
    ensures var first := LogRow(0, "stdout", "", 0, 0); var second := LogRow(1, "stdout", "done", 0, 0);
            Appended(Collect([first]), second.message) == "done" && Collect([first, second]) == "\ndone"
  {
    var first, second := LogRow(0, "stdout", "", 0, 0), LogRow(1, "stdout", "done", 0, 0);
    CollectLast([], first);
    CollectLast([first], second);
    assert [] + [first] == [first] && [first] + [second] == [first, second];
  }

  // ---- Any number of late lines

  /** The rows and the file after one more line: the transaction, then the file update. */
  datatype State = State(table: seq<LogRow>, file: Option<string>)

  function Receive(s: State, row: LogRow): State {
    if Holds(s.table, row.sequence) then s
    else
      var table := s.table + [row];
      State(table,
            if s.file.None? then None
            else if LaterRow(table, row.sequence) then Some(Collect(table))
            else Some(Appended(s.file.value, row.message)))
  }

  function ReceiveAll(s: State, rows: seq<LogRow>): State
    decreases |rows|
  {
    if rows == [] then s else ReceiveAll(Receive(s, rows[0]), rows[1..])
  }

  predicate NonEmpty(rows: seq<LogRow>) {
    forall i :: 0 <= i < |rows| ==> rows[i].message != ""
  }

  lemma {:induction false} CollectNonEmpty(table: seq<LogRow>)
    requires NonEmpty(table) && table != []
    ensures Collect(table) != ""
  {
    InOrderSorts(table);
    var rows := InOrder(table);
    assert |multiset(rows)| == |multiset(table)|;
    assert rows[0] in multiset(table);
    var k :| 0 <= k < |table| && table[k] == rows[0];
    assert Messages(rows)[0] != "";
  }

  lemma {:induction false} LastOrNot(table: seq<LogRow>, row: LogRow)
    ensures LaterRow(table + [row], row.sequence) == LaterRow(table, row.sequence)
  {
    var rows := table + [row];
    forall i | 0 <= i < |table| ensures rows[i] == table[i] {
    }
    if LaterRow(table, row.sequence) {
      var i :| 0 <= i < |table| && table[i].sequence > row.sequence;
      assert rows[i].sequence > row.sequence;
    }
  }

  lemma {:induction false} LineKeepsText(table: seq<LogRow>, row: LogRow)
    requires NonEmpty(table) && !LaterRow(table, row.sequence)
    ensures Appended(Collect(table), row.message) == Collect(table + [row])
  {
    if table != [] {
      CollectNonEmpty(table);
    }
    AppendIsRebuildExactly(table, row);
  }

  lemma {:induction false} LineKeepsFile(s: State, row: LogRow)
    requires NonEmpty(s.table) && row.message != "" && s.file == Some(Collect(s.table))
    ensures NonEmpty(Receive(s, row).table) && Receive(s, row).file == Some(Collect(Receive(s, row).table))
  {
    LastOrNot(s.table, row);
    if !Holds(s.table, row.sequence) && !LaterRow(s.table, row.sequence) {
      LineKeepsText(s.table, row);
    }
  }

  /** Whatever the order of arrival, duplicates included, the file written at completion ends up
      as the join of all rows sorted by sequence. */
  lemma {:induction false} LateLinesRefineCollect(s: State, rows: seq<LogRow>)
    requires NonEmpty(s.table) && NonEmpty(rows) && s.file == Some(Collect(s.table))
    ensures var t := ReceiveAll(s, rows); t.file == Some(Collect(t.table))
    decreases |rows|
  {
    if rows != [] {
      LineKeepsFile(s, rows[0]);
      LateLinesRefineCollect(Receive(s, rows[0]), rows[1..]);
    }
  }

  // ---- Against log retention

  datatype Rewrite = Idle | Checked | Written | Doomed | Done
  datatype Retention = Keeping | Forgotten | Unlinked

  /** The file, whether an operation still names its path, and how far the two have come. */
  datatype Disk = Disk(present: bool, named: bool, rewrite: Rewrite, retention: Retention)

  datatype Move = CheckExists | Replace | CheckNamed | RemoveAgain | Forget | Unlink

  predicate CanMove(d: Disk, m: Move) {
    match m
    case CheckExists => d.rewrite == Idle
    case Replace => d.rewrite == Checked
    case CheckNamed => d.rewrite == Written
    case RemoveAgain => d.rewrite == Doomed
    case Forget => d.retention == Keeping
    case Unlink => d.retention == Forgotten
  }

  function Moved(d: Disk, m: Move): Disk {
    match m
    case CheckExists => d.(rewrite := if d.present then Checked else Done)
    case Replace => d.(rewrite := Written, present := true)
    case CheckNamed => d.(rewrite := if d.named then Done else Doomed)
    case RemoveAgain => d.(rewrite := Done, present := false)
    case Forget => d.(retention := Forgotten, named := false)
    case Unlink => d.(retention := Unlinked, present := false)
  }

  predicate Sane(d: Disk) {
    && d.named == (d.retention == Keeping)
    && (d.retention == Keeping ==> d.present && d.rewrite != Doomed)
    && (d.retention == Unlinked && d.present ==> d.rewrite == Written || d.rewrite == Doomed)
  }

  predicate Moves(d: Disk, ms: seq<Move>)
    decreases |ms|
  {
    ms == [] || (CanMove(d, ms[0]) && Moves(Moved(d, ms[0]), ms[1..]))
  }

  function MovedAll(d: Disk, ms: seq<Move>): Disk
    decreases |ms|
  {
    if ms == [] then d else MovedAll(Moved(d, ms[0]), ms[1..])
  }

  /** Why a rewrite looks again: it can bring back a file that retention has just removed, and then
      removes it itself. */
  lemma {:induction false} RewriteLooksAgain()
    ensures var start := Disk(true, true, Idle, Keeping);
            var back := Moved(Moved(Moved(Moved(start, CheckExists), Forget), Unlink), Replace);
            && CanMove(start, CheckExists) && back.present && back.retention == Unlinked
            && CanMove(back, CheckNamed) && CanMove(Moved(back, CheckNamed), RemoveAgain)
            && Moved(Moved(back, CheckNamed), RemoveAgain) == Disk(false, false, Done, Unlinked)
  {
  }

  /** In every interleaving a rewrite neither brings a file back that retention removed nor
      removes one that is still named. */
  lemma {:induction false} RetentionWins(d: Disk, ms: seq<Move>)
    requires Sane(d) && Moves(d, ms)
    ensures var e := MovedAll(d, ms);
            && (e.rewrite == Done && e.retention == Unlinked ==> !e.present)
            && (e.retention == Keeping ==> e.present)
    decreases |ms|
  {
    if ms != [] {
      RetentionWins(Moved(d, ms[0]), ms[1..]);
    }
  }
}
