/**
 * The captured output of a script (agent/borg_ui_agent/scripts.py, `_bounded_append`): lines are
 * kept until a byte budget is spent, and joined by newlines into the job's result.
 */
module BoundedCapture {
  import opened Utf8

  const MAX_CAPTURED_BYTES: nat := 256 * 1024

  const NEWLINE: CodePoint := 10

  /** The bytes of the lines, a newline counted after each. */
  function Counted(lines: seq<Text>): nat {
    if lines == [] then 0
    else Counted(lines[..|lines| - 1]) + |Encode(lines[|lines| - 1])| + 1
  }

  function Join(lines: seq<Text>): Text {
    if lines == [] then []
    else if |lines| == 1 then lines[0]
    else Join(lines[..|lines| - 1]) + [NEWLINE] + lines[|lines| - 1]
  }

  /** The counter counts one newline more than the joined text holds. */
  lemma {:induction false} JoinedBytes(lines: seq<Text>)
    ensures |Encode(Join(lines))| == if lines == [] then 0 else Counted(lines) - 1
  {
    if |lines| == 1 {
      assert lines[..0] == [];
    } else if |lines| > 1 {
      var before, last := lines[..|lines| - 1], lines[|lines| - 1];
      JoinedBytes(before);
      EncodeConcat(Join(before) + [NEWLINE], last);
      EncodeConcat(Join(before), [NEWLINE]);
      assert Encode([NEWLINE]) == EncodeOne(NEWLINE);
    }
  }

  /** The text read from its front: the first line, a newline, and the text of the rest. */
  lemma {:induction false} JoinFromFront(first: Text, rest: seq<Text>)
    ensures Join([first]) == first
    ensures rest != [] ==> Join([first] + rest) == first + [NEWLINE] + Join(rest)
    decreases |rest|
  {
    if |rest| == 1 {
      assert ([first] + rest)[..1] == [first];
    } else if |rest| > 1 {
      var n := |rest| - 1;
      JoinFromFront(first, rest[..n]);
      assert ([first] + rest)[..n + 1] == [first] + rest[..n];
      assert first + [NEWLINE] + Join(rest[..n]) + [NEWLINE] + rest[n]
          == first + [NEWLINE] + (Join(rest[..n]) + [NEWLINE] + rest[n]);
    }
  }

  /** A line as it is kept when `remaining` bytes are left; None when it is not kept at all. */
  function Kept(line: Text, remaining: int): seq<Text> {
    if remaining <= 0 then [] else [TruncateUtf8(line, remaining)]
  }

  lemma {:induction false} CountedAppend(lines: seq<Text>, line: Text)
    ensures Counted(lines + [line]) == Counted(lines) + |Encode(line)| + 1
  {
    assert (lines + [line])[..|lines|] == lines;
  }

  lemma {:induction false} JoinedAppend(lines: seq<Text>, line: Text)
    ensures |Encode(Join(lines + [line]))| == Counted(lines) + |Encode(line)|
  {
    JoinedBytes(lines + [line]);
    CountedAppend(lines, line);
  }

  /** Every line begins within the budget, and the text of all of them fits. */
  predicate AllFit(lines: seq<Text>) {
    lines == [] || (Counted(lines[..|lines| - 1]) < MAX_CAPTURED_BYTES && |Encode(Join(lines))| <= MAX_CAPTURED_BYTES)
  }

  lemma {:induction false} AllFitAppend(lines: seq<Text>, line: Text)
    ensures AllFit(lines + [line])
            <==> Counted(lines) < MAX_CAPTURED_BYTES && Counted(lines) + |Encode(line)| <= MAX_CAPTURED_BYTES
  {
    assert (lines + [line])[..|lines|] == lines;
    JoinedAppend(lines, line);
  }

  lemma {:induction false} WithinBudgetFits(lines: seq<Text>)
    requires Counted(lines) <= MAX_CAPTURED_BYTES
    ensures AllFit(lines)
  {
    JoinedBytes(lines);
  }

  ghost predicate BeginningOf(kept: Text, line: Text) {
    exists n: nat :: n <= |line| && Replaced(kept) == Replaced(line)[..n]
  }

  /**
   * What the lines leave in the buffer. The counter overshoots the budget by one at most. Nothing
   * is lost exactly when all lines fit, and otherwise at most two bytes of the budget are left. A
   * line is dropped only once the budget is spent; so the kept ones are the first, each a beginning
   * of its line.
   */
  ghost predicate CaptureOf(lines: seq<Text>, buffer: seq<Text>) {
    && Counted(buffer) <= MAX_CAPTURED_BYTES + 1
    && (buffer == lines <==> AllFit(lines))
    && (buffer != lines ==> Counted(buffer) + 2 >= MAX_CAPTURED_BYTES)
    && |buffer| <= |lines| && (|buffer| < |lines| ==> Counted(buffer) >= MAX_CAPTURED_BYTES)
    && forall i :: 0 <= i < |buffer| ==> BeginningOf(buffer[i], lines[i])
  }

  /** The line is dropped once the budget is spent, and otherwise kept: whole when it fits, and
      then cut to nearly all that is left. */
  ghost predicate KeepsLine(before: seq<Text>, line: Text, after: seq<Text>) {
    var remaining := MAX_CAPTURED_BYTES - Counted(before);
    && Counted(after) <= MAX_CAPTURED_BYTES + 1
    && (after == before + [line] <==> remaining > 0 && |Encode(line)| <= remaining)
    && (after == before + [line] || Counted(after) + 2 >= MAX_CAPTURED_BYTES)
    && if remaining <= 0 then after == before
       else |after| == |before| + 1 && before <= after && BeginningOf(after[|before|], line)
  }

  lemma {:induction false} KeptKeepsLine(before: seq<Text>, line: Text)
    requires Counted(before) <= MAX_CAPTURED_BYTES + 1
    ensures KeepsLine(before, line, before + Kept(line, MAX_CAPTURED_BYTES - Counted(before)))
  {
    var remaining := MAX_CAPTURED_BYTES - Counted(before);
    if remaining > 0 {
      TruncatesToLongestPrefix(line, remaining);
      var kept := TruncateUtf8(line, remaining);
      CountedAppend(before, kept);
      assert (before + [kept])[|before|] == kept && (before + [line])[|before|] == line;
    } else {
      assert before + [] == before;
    }
  }

  lemma {:induction false} AppendKeepsCapture(lines: seq<Text>, buffer: seq<Text>, line: Text, after: seq<Text>)
    requires CaptureOf(lines, buffer) && KeepsLine(buffer, line, after)
    ensures CaptureOf(lines + [line], after)
  {
    AllFitAppend(lines, line);
    if AllFit(lines + [line]) {
      WithinBudgetFits(lines);
    }
    if after == lines + [line] {
      assert after[..|lines|] == lines;
    }
    forall i | 0 <= i < |after| ensures BeginningOf(after[i], (lines + [line])[i]) {
      if i < |buffer| {
        assert after[i] == buffer[i] && BeginningOf(buffer[i], lines[i]);
      }
    }
  }

  /** The joined text stays within the budget, and wastes no more than three bytes of it unless
      every line was kept. */
  lemma {:induction false} CapturedText(lines: seq<Text>, buffer: seq<Text>)
    requires CaptureOf(lines, buffer)
    ensures |Encode(Join(buffer))| <= MAX_CAPTURED_BYTES
    ensures AllFit(lines) ==> Join(buffer) == Join(lines)
    ensures !AllFit(lines) ==> |Encode(Join(buffer))| + 3 >= MAX_CAPTURED_BYTES
  {
    JoinedBytes(buffer);
  }

  // ---- Whole runs

  /** The buffer after one more line. */
  function Take(buffer: seq<Text>, line: Text): seq<Text> {
    buffer + Kept(line, MAX_CAPTURED_BYTES - Counted(buffer))
  }

  predicate TakesAt(lines: seq<Text>, buffers: seq<seq<Text>>, i: nat)
    requires i < |lines| && |buffers| == |lines| + 1
  {
    buffers[i + 1] == Take(buffers[i], lines[i])
  }

  /** The buffers of a run: empty at first, and then one more after every line. */
  predicate History(lines: seq<Text>, buffers: seq<seq<Text>>) {
    && |buffers| == |lines| + 1 && buffers[0] == []
    && forall i :: 0 <= i < |lines| ==> TakesAt(lines, buffers, i)
  }

  lemma {:induction false} HistoryGoesOn(lines: seq<Text>, buffers: seq<seq<Text>>, line: Text)
    requires History(lines, buffers)
    ensures History(lines + [line], buffers + [Take(buffers[|lines|], line)])
  {
    var more, longer := lines + [line], buffers + [Take(buffers[|lines|], line)];
    forall i | 0 <= i < |more| ensures TakesAt(more, longer, i) {
      if i < |lines| {
        assert TakesAt(lines, buffers, i);
      }
    }
  }

  lemma {:induction false} NextBuffer(lines: seq<Text>, buffers: seq<seq<Text>>, line: Text)
    requires History(lines, buffers)
    ensures History(lines + [line], buffers + [Take(buffers[|lines|], line)])
    ensures CaptureOf(lines + [line], Take(buffers[|lines|], line))
  {
    var more, longer := lines + [line], buffers + [Take(buffers[|lines|], line)];
    HistoryGoesOn(lines, buffers, line);
    HistoryIsCapture(more, longer, |more|);
    assert more[..|more|] == more;
  }

  /** What a line takes of the room that is left. */
  lemma {:induction false} TakeCounts(buffer: seq<Text>, line: Text)
    requires Counted(buffer) < MAX_CAPTURED_BYTES
    ensures Counted(Take(buffer, line))
            == Counted(buffer) + |Encode(TruncateUtf8(line, MAX_CAPTURED_BYTES - Counted(buffer)))| + 1
  {
    CountedAppend(buffer, TruncateUtf8(line, MAX_CAPTURED_BYTES - Counted(buffer)));
  }

  lemma {:induction false} LineIsKept(lines: seq<Text>, buffers: seq<seq<Text>>, i: nat)
    requires History(lines, buffers) && i < |lines| && Counted(buffers[i]) <= MAX_CAPTURED_BYTES + 1
    ensures KeepsLine(buffers[i], lines[i], buffers[i + 1])
  {
    assert TakesAt(lines, buffers, i);
    KeptKeepsLine(buffers[i], lines[i]);
  }

  lemma {:induction false} CaptureOfMore(more: seq<Text>, lines: seq<Text>, line: Text, before: seq<Text>,
          after: seq<Text>)
    requires more == lines + [line] && CaptureOf(lines, before) && KeepsLine(before, line, after)
    ensures CaptureOf(more, after)
  {
    AppendKeepsCapture(lines, before, line, after);
  }

  lemma {:induction false} NothingYet(lines: seq<Text>, buffers: seq<seq<Text>>)
    requires History(lines, buffers)
    ensures CaptureOf(lines[..0], buffers[0])
  {
    assert lines[..0] == [];
  }

  lemma {:induction false} NextIsCapture(lines: seq<Text>, buffers: seq<seq<Text>>, n: nat)
    requires History(lines, buffers) && n < |lines| && CaptureOf(lines[..n], buffers[n])
    ensures CaptureOf(lines[..n + 1], buffers[n + 1])
  {
    assert lines[..n + 1] == lines[..n] + [lines[n]];
    LineIsKept(lines, buffers, n);
    CaptureOfMore(lines[..n + 1], lines[..n], lines[n], buffers[n], buffers[n + 1]);
  }

  /** Every buffer of a run is what its lines leave. */
  lemma {:induction false} HistoryIsCapture(lines: seq<Text>, buffers: seq<seq<Text>>, n: nat)
    requires History(lines, buffers) && n <= |lines|
    ensures CaptureOf(lines[..n], buffers[n])
  {
    if n == 0 {
      NothingYet(lines, buffers);
    } else {
      HistoryIsCapture(lines, buffers, n - 1);
      NextIsCapture(lines, buffers, n - 1);
    }
  }

  lemma {:induction false} StaysBounded(lines: seq<Text>, buffers: seq<seq<Text>>, n: nat)
    requires History(lines, buffers) && n <= |lines|
    ensures Counted(buffers[n]) <= MAX_CAPTURED_BYTES + 1
  {
    HistoryIsCapture(lines, buffers, n);
  }

  lemma {:induction false} BufferGrows(lines: seq<Text>, buffers: seq<seq<Text>>, m: nat, n: nat)
    requires History(lines, buffers) && m <= n <= |lines|
    ensures |buffers[m]| <= |buffers[n]|
  {
    if m < n {
      BufferGrows(lines, buffers, m, n - 1);
      StaysBounded(lines, buffers, n - 1);
      LineIsKept(lines, buffers, n - 1);
    }
  }

  lemma {:induction false} SpentStaysSpent(lines: seq<Text>, buffers: seq<seq<Text>>, m: nat, n: nat)
    requires History(lines, buffers) && m <= n <= |lines| && Counted(buffers[m]) >= MAX_CAPTURED_BYTES
    ensures buffers[n] == buffers[m]
  {
    if m < n {
      SpentStaysSpent(lines, buffers, m, n - 1);
      StaysBounded(lines, buffers, n - 1);
      LineIsKept(lines, buffers, n - 1);
    }
  }

  /** The lines before line `k` fit, and line `k` does not fit with them. */
  predicate FirstCut(lines: seq<Text>, k: nat) {
    k < |lines| && AllFit(lines[..k]) && !AllFit(lines[..k + 1])
  }

  /** The room line `k` finds behind the lines before it, and what it leaves of it once it is cut. */
  function Room(lines: seq<Text>, k: nat): int
    requires k < |lines|
  {
    MAX_CAPTURED_BYTES - Counted(lines[..k])
  }

  function RoomAfterCut(lines: seq<Text>, k: nat): int
    requires k < |lines|
  {
    if Room(lines, k) <= 0 then 0
    else Room(lines, k) - |Encode(TruncateUtf8(lines[k], Room(lines, k)))| - 1
  }

  lemma {:induction false} CutLeavesRoom(lines: seq<Text>, buffers: seq<seq<Text>>, k: nat)
    requires History(lines, buffers) && FirstCut(lines, k)
    ensures Counted(buffers[k + 1]) <= MAX_CAPTURED_BYTES + 1 && |buffers[k + 1]| <= k + 1
    ensures MAX_CAPTURED_BYTES - Counted(buffers[k + 1]) <= 2
    ensures RoomAfterCut(lines, k) > 0 ==> |buffers[k + 1]| == k + 1
    ensures RoomAfterCut(lines, k) > 0 <==> Counted(buffers[k + 1]) < MAX_CAPTURED_BYTES
    ensures RoomAfterCut(lines, k) > 0 ==> RoomAfterCut(lines, k) == MAX_CAPTURED_BYTES - Counted(buffers[k + 1])
  {
    HistoryIsCapture(lines, buffers, k);
    HistoryIsCapture(lines, buffers, k + 1);
    LineIsKept(lines, buffers, k);
    assert buffers[k] == lines[..k];
    if Room(lines, k) > 0 {
      assert TakesAt(lines, buffers, k);
      TakeCounts(buffers[k], lines[k]);
    }
  }

  /**
   * Whether the captured text goes on behind the first line that is cut or dropped: exactly if that
   * line leaves room, which is two bytes at most, and another line follows. A line leaves room when
   * a character of several bytes stands across the end of the budget.
   */
  lemma {:induction false} GoesOnBehindCutExactly(lines: seq<Text>, buffers: seq<seq<Text>>, k: nat)
    requires History(lines, buffers) && FirstCut(lines, k)
    ensures |buffers[|lines|]| > k + 1 <==> RoomAfterCut(lines, k) > 0 && k + 1 < |lines|
    ensures RoomAfterCut(lines, k) <= 2
  {
    CutLeavesRoom(lines, buffers, k);
    if Counted(buffers[k + 1]) >= MAX_CAPTURED_BYTES {
      SpentStaysSpent(lines, buffers, k + 1, |lines|);
    } else if k + 1 < |lines| {
      LineIsKept(lines, buffers, k + 1);
      BufferGrows(lines, buffers, k + 2, |lines|);
    }
  }

  // ---- Two surprises at the end of the budget

  /** `n` letters. */
  function Letters(n: nat): (text: Text)
    ensures |text| == n
  {
    seq(n, i => 97)
  }

  lemma {:induction false} LettersTakeOneByte(n: nat)
    ensures |Encode(Letters(n))| == n
  {
    if n > 0 {
      assert Letters(n)[1..] == Letters(n - 1);
      LettersTakeOneByte(n - 1);
    }
  }

  /** An empty last line is lost when it begins exactly at the end of the budget, although the text
      with it would be no longer than the budget. */
  lemma {:induction false} EmptyLastLineIsLost(buffer: seq<Text>)
    requires CaptureOf([Letters(MAX_CAPTURED_BYTES - 1), []], buffer)
    ensures |Encode(Join([Letters(MAX_CAPTURED_BYTES - 1), []]))| == MAX_CAPTURED_BYTES
    ensures buffer != [Letters(MAX_CAPTURED_BYTES - 1), []]
  {
    var line := Letters(MAX_CAPTURED_BYTES - 1);
    LettersTakeOneByte(MAX_CAPTURED_BYTES - 1);
    assert [line, []] == [line] + [[]] && [] + [line] == [line];
    CountedAppend([], line);
    JoinedAppend([line], []);
    AllFitAppend([line], []);
  }

  /** The line that overruns the budget by a character of four bytes, of which three would fit. */
  function Overrun(): Text {
    Letters(MAX_CAPTURED_BYTES - 3) + [0x10000]
  }

  lemma {:induction false} FourBytes()
    ensures |Encode([0x10000])| == 4
  {
    assert Encode([0x10000]) == EncodeOne(0x10000) + Encode([]);
  }

  lemma {:induction false} OverrunIsCut()
    ensures Kept(Overrun(), MAX_CAPTURED_BYTES) == [Letters(MAX_CAPTURED_BYTES - 3)]
  {
    var front := Letters(MAX_CAPTURED_BYTES - 3);
    LettersTakeOneByte(MAX_CAPTURED_BYTES - 3);
    EncodeConcat(front, [0x10000]);
    FourBytes();
    assert Overrun()[..|front|] == front && Overrun()[..|front| + 1] == Overrun();
    assert Replaced(front) == front;
    OnlyLongest(Overrun(), |front|, MAX_CAPTURED_BYTES);
  }

  lemma {:induction false} TwoLettersFit()
    ensures Kept([98, 99], 2) == [[98, 99]]
  {
    EncodeConcat([98], [99]);
    assert [98] + [99] == [98, 99];
    assert Encode([98]) == [98] && Encode([99]) == [99];
  }

  lemma {:induction false} CutLeavesTwoBytes()
    ensures Counted([Letters(MAX_CAPTURED_BYTES - 3)]) == MAX_CAPTURED_BYTES - 2
  {
    var front := Letters(MAX_CAPTURED_BYTES - 3);
    LettersTakeOneByte(MAX_CAPTURED_BYTES - 3);
    assert [] + [front] == [front];
    CountedAppend([], front);
  }

  lemma {:induction false} OverrunIsTaken()
    ensures Take([], Overrun()) == [Letters(MAX_CAPTURED_BYTES - 3)]
  {
    OverrunIsCut();
    assert [] + [Letters(MAX_CAPTURED_BYTES - 3)] == [Letters(MAX_CAPTURED_BYTES - 3)];
  }

  lemma {:induction false} TwoLettersAreTaken()
    ensures Take([Letters(MAX_CAPTURED_BYTES - 3)], [98, 99]) == [Letters(MAX_CAPTURED_BYTES - 3), [98, 99]]
  {
    CutLeavesTwoBytes();
    TwoLettersFit();
  }

  lemma {:induction false} OverrunIsFirstCut(line: Text)
    ensures FirstCut([Overrun(), line], 0)
  {
    var lines, front := [Overrun(), line], Letters(MAX_CAPTURED_BYTES - 3);
    LettersTakeOneByte(MAX_CAPTURED_BYTES - 3);
    EncodeConcat(front, [0x10000]);
    FourBytes();
    JoinedAppend([], Overrun());
    assert lines[..0] == [] && lines[..1] == [] + [Overrun()];
  }

  /** A run in which it does: the cut leaves two bytes, and a later line of two bytes is taken whole
      behind the gap. */
  lemma {:induction false} LaterLineIsTakenAfterCut() returns (lines: seq<Text>, buffers: seq<seq<Text>>)
    ensures lines == [Overrun(), [98, 99]] && History(lines, buffers) && FirstCut(lines, 0)
    ensures buffers[2] == [Letters(MAX_CAPTURED_BYTES - 3), [98, 99]]
  {
    lines := [Overrun(), [98, 99]];
    buffers := [[], [Letters(MAX_CAPTURED_BYTES - 3)], [Letters(MAX_CAPTURED_BYTES - 3), [98, 99]]];
    OverrunIsFirstCut([98, 99]);
    OverrunIsTaken();
    TwoLettersAreTaken();
    assert TakesAt(lines, buffers, 0) && TakesAt(lines, buffers, 1);
  }

  class Capture {
    var buffer: seq<Text>
    var size: int
    ghost var appended: seq<Text>
    ghost var history: seq<seq<Text>>

    ghost predicate Valid()
      reads this
    {
      && size == Counted(buffer) && CaptureOf(appended, buffer)
      && History(appended, history) && buffer == history[|appended|]
    }

    constructor ()
      ensures Valid() && appended == [] && buffer == []
    {
      buffer, size, appended, history := [], 0, [], [[]];
    }

    method BoundedAppend(line: Text)
      requires Valid()
      modifies this
      ensures Valid() && appended == old(appended) + [line]
      ensures buffer == Take(old(buffer), line)
    {
      NextBuffer(appended, history, line);
      appended, history := appended + [line], history + [Take(buffer, line)];
      buffer, size := Appended(buffer, size, line);
    }

    /** The body: the buffer and the counter after the line. */
    static method Appended(buffer: seq<Text>, size: int, line: Text) returns (after: seq<Text>, counted: int)
      requires size == Counted(buffer)
      ensures after == Take(buffer, line) && counted == Counted(after)
    {
      var remaining := MAX_CAPTURED_BYTES - size;
      if remaining <= 0 {
        assert buffer + [] == buffer;
        return buffer, size;
      }
      var encoded := Encode(line);
      var kept := line;
      if |encoded| + 1 > remaining {
        kept := TruncateUtf8(line, remaining);
        encoded := Encode(kept);
      }
      CountedAppend(buffer, kept);
      return buffer + [kept], size + |encoded| + 1;
    }
  }
}
