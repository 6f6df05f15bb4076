/**
 * What a requeue leaves of a stored log, row by row: which lines stay, in which rows, under which
 * numbers, and that splitting a text into lines loses nothing of it.
 */
module LogContents {
  import opened Wrappers
  import opened JobRows
  import opened JobLogs
  import JobHandlers

  /** The newline a text ends with, if it does. */
  function LastNewline(text: string): string {
    if text != "" && text[|text| - 1] == '\n' then "\n" else ""
  }

  lemma {:induction false} JoinFirst(first: string, rest: seq<string>)
    requires rest != []
    ensures JoinLines([first] + rest) == first + "\n" + JoinLines(rest)
  {
    assert ([first] + rest)[1..] == rest;
  }

  lemma {:induction false} SplitFirstOff(text: string, end: nat)
    requires end == LineEnd(text, 0) < |text|
    ensures text == text[..end] + "\n" + text[end + 1..]
    ensures SplitLines(text) == [text[..end]] + SplitLines(text[end + 1..])
    ensures LastNewline(text) == if end + 1 == |text| then "\n" else LastNewline(text[end + 1..])
  {
  }

  /** Joining the lines of a text gives the text back, but for a newline at its very end. */
  lemma {:induction false} SplitLosesNothing(text: string)
    ensures text == JoinLines(SplitLines(text)) + LastNewline(text)
    decreases |text|
  {
    if text != "" && LineEnd(text, 0) < |text| {
      var end := LineEnd(text, 0);
      var first, rest := text[..end], text[end + 1..];
      SplitFirstOff(text, end);
      SplitLosesNothing(rest);
      if rest == "" {
        assert [first] + [] == [first];
      } else {
        JoinFirst(first, SplitLines(rest));
        Regroup(first + "\n", JoinLines(SplitLines(rest)), LastNewline(rest));
      }
    }
  }

  lemma {:induction false} Regroup(a: string, b: string, c: string)
    ensures a + (b + c) == a + b + c
  {
  }

  lemma {:induction false} NamingAppend(a: seq<string>, b: seq<string>, w: Wording)
    ensures Naming(a + b, w) == Naming(a, w) + Naming(b, w)
  {
    if a == [] {
      assert a + b == b;
    } else {
      assert (a + b)[1..] == a[1..] + b;
      NamingAppend(a[1..], b, w);
    }
  }

  /** The lines that name an archive: a line at any place among others stays if and only if it names
      one. */
  lemma {:induction false} LineStaysExactly(before: seq<string>, line: string, after: seq<string>, w: Wording)
    ensures Naming(before + [line] + after, w)
            == Naming(before, w) + (if w.names(line) then [line] else []) + Naming(after, w)
  {
    NamingAppend(before, [line], w);
    NamingAppend(before + [line], after, w);
    assert [line][1..] == [];
  }

  lemma {:induction false} KeptAppend(a: seq<LogRow>, b: seq<LogRow>, w: Wording)
    ensures KeptLines(a + b, w) == KeptLines(a, w) + KeptLines(b, w)
  {
    if a == [] {
      assert a + b == b;
    } else {
      assert (a + b)[1..] == a[1..] + b;
      KeptAppend(a[1..], b, w);
    }
  }

  /** What is kept of one row: its naming lines, with its stream and its times, or nothing. */
  function KeptOf(row: LogRow, w: Wording): seq<LogRow> {
    var named := Naming(SplitLines(row.message), w);
    if |named| == 0 then []
    else [LogRow(row.sequence, row.stream, JoinLines(named), row.createdAt, row.receivedAt)]
  }

  /** A row at any place among others is kept if and only if it has a naming line, cut down to those
      lines and otherwise as it was. */
  lemma {:induction false} RowStaysExactly(before: seq<LogRow>, row: LogRow, after: seq<LogRow>, w: Wording)
    ensures KeptLines(before + [row] + after, w) == KeptLines(before, w) + KeptOf(row, w) + KeptLines(after, w)
  {
    KeptAppend(before, [row], w);
    KeptAppend(before + [row], after, w);
    assert [row][1..] == [];
  }

  /** The whole table after a requeue: nothing of an empty log; of any other the kept rows of a
      prune, numbered to end at -2 in their order, and the note at -1. */
  lemma {:induction false} ResetLogExactly(prune: bool, table: seq<LogRow>, w: Wording, now: int)
    ensures var t, kept := ResetLog(prune, table, w, now), if prune then KeptLines(InOrder(table), w) else [];
            if table == [] then t == []
            else
              && |t| == |kept| + 1
              && t[|kept|] == LogRow(-1, "stdout", w.requeueNote, now, now)
              && forall i :: 0 <= i < |kept| ==> t[i] == kept[i].(sequence := i - 1 - |kept|)
  {
  }

  /** The log is reset if and only if the requeue put the job back on the queue. */
  lemma {:induction false} LogIsResetExactly(w: Wording, copy: JobRow, p: Presence, r: Rows, logs: seq<LogRow>)
    requires r.job.status != Queued
    ensures JobHandlers.LogAfterRequeue(w, copy, p, r.job, logs)
            == if RequeueJob(copy, p, r).rows.job.status == Queued then ResetLog(r.job.payload.prune, logs, w, p.now)
               else logs
  {
  }
}
