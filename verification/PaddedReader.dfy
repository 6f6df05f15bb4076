/**
 * The reader an artifact upload pulls a command's output through
 * (agent/borg_ui_agent/repository_ops.py, `_ActivityTrackingReader`). In padded mode a silent
 * command is covered by bare newlines, which its consumer skips as blank lines; so that they never
 * land inside a line, output is passed on in whole lines.
 */
module PaddedReader {
  import opened Wrappers

  type byte = b: int | 0 <= b < 256

  const NEWLINE: byte := 10

  // ---- What the consumer sees

  /** The non-blank lines of a stream; `line` is what came since the last newline. */
  function LinesFrom(stream: seq<byte>, line: seq<byte>): seq<seq<byte>>
    decreases |stream|
  {
    if stream == [] then if line == [] then [] else [line]
    else if stream[0] == NEWLINE then (if line == [] then [] else [line]) + LinesFrom(stream[1..], [])
    else LinesFrom(stream[1..], line + [stream[0]])
  }

  function NonBlankLines(stream: seq<byte>): seq<seq<byte>> {
    LinesFrom(stream, [])
  }

  /** What the consumer makes of a line: it sees it, unless it is blank, and goes on behind its end. */
  lemma {:induction false} LineIsSeen(line: seq<byte>, before: seq<byte>, rest: seq<byte>)
    requires NEWLINE !in line
    ensures LinesFrom(line + [NEWLINE] + rest, before)
            == (if before + line == [] then [] else [before + line]) + NonBlankLines(rest)
    ensures LinesFrom(line, before) == if before + line == [] then [] else [before + line]
    decreases |line|
  {
    var stream := line + [NEWLINE] + rest;
    if line == [] {
      assert stream[1..] == rest && before + line == before;
    } else {
      assert stream[1..] == line[1..] + [NEWLINE] + rest;
      assert before + line == before + [line[0]] + line[1..];
      LineIsSeen(line[1..], before + [line[0]], rest);
    }
  }

  predicate AtLineStart(stream: seq<byte>) {
    stream == [] || stream[|stream| - 1] == NEWLINE
  }

  /** `body` is `data` with bare newlines put in, every one of them at a line boundary of `data`. */
  ghost predicate Padded(body: seq<byte>, data: seq<byte>)
    decreases |body|
  {
    if body == [] then data == []
    else
      var n := |body| - 1;
      || (body[n] == NEWLINE && AtLineStart(data) && Padded(body[..n], data))
      || (data != [] && body[n] == data[|data| - 1] && Padded(body[..n], data[..|data| - 1]))
  }

  lemma {:induction false} PaddedByNewline(body: seq<byte>, data: seq<byte>)
    requires Padded(body, data) && AtLineStart(data)
    ensures Padded(body + [NEWLINE], data)
  {
    assert (body + [NEWLINE])[..|body|] == body;
  }

  lemma {:induction false} PaddedByData(body: seq<byte>, data: seq<byte>, chunk: seq<byte>)
    requires Padded(body, data)
    ensures Padded(body + chunk, data + chunk)
    decreases |chunk|
  {
    if chunk == [] {
      assert body + chunk == body && data + chunk == data;
    } else {
      var n := |chunk| - 1;
      PaddedByData(body, data, chunk[..n]);
      assert (body + chunk)[..|body + chunk| - 1] == body + chunk[..n];
      assert (data + chunk)[..|data + chunk| - 1] == data + chunk[..n];
    }
  }

  /** The two streams read the same, whatever follows both. */
  ghost predicate SameLines(a: seq<byte>, b: seq<byte>) {
    forall rest: seq<byte> :: NonBlankLines(a + rest) == NonBlankLines(b + rest)
  }

  lemma {:induction false} BlankLineIsSkipped(stream: seq<byte>, rest: seq<byte>, line: seq<byte>)
    requires if stream == [] then line == [] else stream[|stream| - 1] == NEWLINE
    ensures LinesFrom(stream + [NEWLINE] + rest, line) == LinesFrom(stream + rest, line)
    decreases |stream|
  {
    var padded, plain := stream + [NEWLINE] + rest, stream + rest;
    if stream == [] {
      assert plain == rest && padded[1..] == rest;
    } else {
      assert padded[1..] == stream[1..] + [NEWLINE] + rest && plain[1..] == stream[1..] + rest;
      BlankLineIsSkipped(stream[1..], rest, if stream[0] == NEWLINE then [] else line + [stream[0]]);
    }
  }

  lemma {:induction false} PadKeepsLines(given: seq<byte>, data: seq<byte>)
    requires SameLines(given, data) && AtLineStart(data)
    ensures SameLines(given + [NEWLINE], data)
  {
    forall rest: seq<byte> ensures NonBlankLines((given + [NEWLINE]) + rest) == NonBlankLines(data + rest) {
      assert (given + [NEWLINE]) + rest == given + ([NEWLINE] + rest);
      assert data + [NEWLINE] + rest == data + ([NEWLINE] + rest);
      BlankLineIsSkipped(data, rest, []);
    }
  }

  lemma {:induction false} DataKeepsLines(given: seq<byte>, data: seq<byte>, chunk: seq<byte>)
    requires SameLines(given, data)
    ensures SameLines(given + chunk, data + chunk)
  {
    forall rest: seq<byte> ensures NonBlankLines((given + chunk) + rest) == NonBlankLines((data + chunk) + rest) {
      assert (given + chunk) + rest == given + (chunk + rest) && (data + chunk) + rest == data + (chunk + rest);
    }
  }

  /** Padding changes no non-blank line, whatever follows. */
  lemma {:induction false} PaddedReadsTheSame(body: seq<byte>, data: seq<byte>)
    requires Padded(body, data)
    ensures SameLines(body, data)
    decreases |body|
  {
    if body != [] {
      var n := |body| - 1;
      assert body == body[..n] + [body[n]];
      if body[n] == NEWLINE && AtLineStart(data) && Padded(body[..n], data) {
        PaddedReadsTheSame(body[..n], data);
        PadKeepsLines(body[..n], data);
      } else {
        var m := |data| - 1;
        PaddedReadsTheSame(body[..n], data[..m]);
        DataKeepsLines(body[..n], data[..m], [body[n]]);
        assert data == data[..m] + [body[n]];
      }
    }
  }

  // ---- The pipe

  /** What the pipe has in store: silences longer than the padding interval, bytes, a failure. */
  datatype Arrival = Silence | Bytes(data: seq<byte>) | Broken

  predicate Proper(arrivals: seq<Arrival>) {
    forall i :: 0 <= i < |arrivals| && arrivals[i].Bytes? ==> arrivals[i].data != []
  }

  /** The bytes still to come. */
  function Remaining(arrivals: seq<Arrival>): seq<byte> {
    if arrivals == [] || arrivals[0].Broken? then []
    else (if arrivals[0].Bytes? then arrivals[0].data else []) + Remaining(arrivals[1..])
  }

  function Size(arrivals: seq<Arrival>): nat {
    if arrivals == [] then 0 else 1 + (if arrivals[0].Bytes? then |arrivals[0].data| else 0) + Size(arrivals[1..])
  }

  /** The silences before the end of output. */
  function Silences(arrivals: seq<Arrival>): nat {
    if arrivals == [] || arrivals[0].Broken? then 0
    else (if arrivals[0].Silence? then 1 else 0) + Silences(arrivals[1..])
  }

  predicate Ended(arrivals: seq<Arrival>) {
    arrivals == [] || arrivals[0].Broken?
  }

  predicate SilentNow(arrivals: seq<Arrival>) {
    arrivals != [] && arrivals[0].Silence?
  }

  class Pipe {
    var arrivals: seq<Arrival>

    constructor (arrivals: seq<Arrival>)
      ensures this.arrivals == arrivals
    {
      this.arrivals := arrivals;
    }

    /** False when nothing came within the padding interval. */
    method Select() returns (ready: bool)
      modifies this
      ensures ready == !SilentNow(old(arrivals))
      ensures arrivals == if ready then old(arrivals) else old(arrivals)[1..]
      ensures Proper(old(arrivals)) ==> Proper(arrivals)
      ensures Remaining(arrivals) == Remaining(old(arrivals))
      ensures !ready ==>
                Size(arrivals) < Size(old(arrivals)) && Silences(arrivals) == Silences(old(arrivals)) - 1
    {
      ready := arrivals == [] || !arrivals[0].Silence?;
      if !ready {
        arrivals := arrivals[1..];
      }
    }

    /** At most `size` bytes of what is ready; nothing at the end of output or after a failure. */
    method ReadReady(size: nat) returns (data: seq<byte>)
      requires size > 0 && Proper(arrivals)
      requires Ended(arrivals) || arrivals[0].Bytes?
      modifies this
      ensures Proper(arrivals)
      ensures data == [] <==> Ended(old(arrivals))
      ensures data == [] ==> arrivals == old(arrivals)
      ensures data != [] ==> Size(arrivals) < Size(old(arrivals))
      ensures |data| <= size && data + Remaining(arrivals) == Remaining(old(arrivals))
      ensures Silences(arrivals) == Silences(old(arrivals))
    {
      if arrivals == [] || arrivals[0].Broken? {
        return [];
      }
      var chunk := arrivals[0].data;
      if |chunk| <= size {
        arrivals := arrivals[1..];
        return chunk;
      }
      var rest := [Bytes(chunk[size..])] + arrivals[1..];
      assert rest[1..] == arrivals[1..];
      assert chunk == chunk[..size] + chunk[size..];
      assert chunk[..size] + (chunk[size..] + Remaining(arrivals[1..])) == chunk + Remaining(arrivals[1..]);
      arrivals := rest;
      return chunk[..size];
    }
  }

  // ---- The reader

  datatype ReadError = NeedsSize

  /** The position after the last newline, or 0. */
  function AfterLastNewline(data: seq<byte>): (cut: nat)
    ensures cut <= |data|
    ensures cut > 0 ==> data[cut - 1] == NEWLINE
    ensures forall i :: cut <= i < |data| ==> data[i] != NEWLINE
  {
    if data == [] then 0
    else if data[|data| - 1] == NEWLINE then |data|
    else AfterLastNewline(data[..|data| - 1])
  }

  lemma {:induction false} Regroup(a: seq<byte>, b: seq<byte>, c: seq<byte>)
    ensures (a + b) + c == a + (b + c)
  {
  }

  lemma {:induction false} CutAt(data: seq<byte>, combined: seq<byte>, cut: nat)
    requires 0 < cut <= |combined| && combined[cut - 1] == NEWLINE
    ensures data + combined == (data + combined[..cut]) + combined[cut..]
    ensures AtLineStart(data + combined[..cut])
  {
    assert combined == combined[..cut] + combined[cut..];
  }

  class ActivityTrackingReader {
    const pipe: Pipe
    var pending: seq<byte>
    var bytesRead: nat
    var lastActivity: int
    // Bytes taken from the pipe, bytes handed out, and the latter without the padding.
    ghost var taken: seq<byte>
    ghost var given: seq<byte>
    ghost var data: seq<byte>

    /** Nothing is lost, reordered or invented, and no newline is held back. */
    ghost predicate Kept()
      reads this
    {
      && taken == data + pending
      && bytesRead == |taken|
      && (forall i :: 0 <= i < |pending| ==> pending[i] != NEWLINE)
      && Padded(given, data)
    }

    ghost predicate Valid()
      reads this, pipe
    {
      && Proper(pipe.arrivals)
      && Kept()
      && (AtLineStart(data) || (Ended(pipe.arrivals) && pending == []))
    }

    /** The bytes handed out that are padding, and those still due for the silences to come. */
    ghost function Padding(): int
      reads this, pipe
    {
      |given| - |data| + Silences(pipe.arrivals)
    }

    constructor (pipe: Pipe, now: int)
      requires Proper(pipe.arrivals)
      ensures Valid() && this.pipe == pipe && taken == given == data == []
    {
      this.pipe := pipe;
      pending, bytesRead, lastActivity := [], 0, now;
      taken, given, data := [], [], [];
    }

    /**
     * One read of the upload, in padded mode. It returns a bare newline after a silence, and at
     * once if the pipe is silent now; or whole lines; or at the end of output what is left of the
     * last line, and nothing after that. Every silence is padded by one newline.
     */
    method Read(size: Option<int>, now: int) returns (r: Result<seq<byte>, ReadError>)
      requires Valid()
      modifies this, pipe
      ensures Valid()
      ensures r.Failure? <==> size.None? || size.value <= 0
      ensures r.Failure? ==> given == old(given) && data == old(data) && pipe.arrivals == old(pipe.arrivals)
      ensures taken + Remaining(pipe.arrivals) == old(taken) + Remaining(old(pipe.arrivals))
      ensures r.Success? ==> given == old(given) + r.value
      ensures r.Success? ==>
                || (r.value == [NEWLINE] && data == old(data) && AtLineStart(data))  // padding
                || (data == old(data) + r.value && (AtLineStart(data) || Ended(pipe.arrivals)))
      ensures r.Success? && SilentNow(old(pipe.arrivals)) ==>
                && r.value == [NEWLINE] && pipe.arrivals == old(pipe.arrivals)[1..]
                && taken == old(taken) && pending == old(pending)
      ensures Padding() == old(Padding())
      ensures r.Success? && r.value == [] ==> Ended(pipe.arrivals) && pending == []
      ensures r.Success? && r.value != [] ==>
                Size(pipe.arrivals) < Size(old(pipe.arrivals))
                    || (Size(pipe.arrivals) == Size(old(pipe.arrivals)) && |pending| < |old(pending)|)
      ensures if taken == old(taken) then lastActivity == old(lastActivity) else lastActivity == now
    {
      if size.None? || size.value <= 0 {
        return Failure(NeedsSize);
      }
      while true
        invariant Valid() && given == old(given) && data == old(data)
        invariant taken + Remaining(pipe.arrivals) == old(taken) + Remaining(old(pipe.arrivals))
        invariant Size(pipe.arrivals) < Size(old(pipe.arrivals))
                  || (pipe.arrivals == old(pipe.arrivals) && pending == old(pending))
        invariant if taken == old(taken) then lastActivity == old(lastActivity)
                  else lastActivity == now && |taken| > |old(taken)|
        invariant Padding() == old(Padding())
        invariant SilentNow(old(pipe.arrivals)) ==>
                    pipe.arrivals == old(pipe.arrivals) && taken == old(taken) && pending == old(pending)
        decreases Size(pipe.arrivals)
      {
        var out := Turn(size.value, now);
        if out.Some? {
          return Success(out.value);
        }
      }
    }

    /** One turn of the read loop; None when what came was held back as part of a line. */
    method Turn(size: nat, now: int) returns (out: Option<seq<byte>>)
      requires Valid() && size > 0
      modifies this, pipe
      ensures Valid() && Padding() == old(Padding())
      ensures taken + Remaining(pipe.arrivals) == old(taken) + Remaining(old(pipe.arrivals))
      ensures out.None? ==> given == old(given) && data == old(data)
      ensures out.Some? ==> given == old(given) + out.value
      ensures SilentNow(old(pipe.arrivals)) ==>
                && out == Some([NEWLINE]) && pipe.arrivals == old(pipe.arrivals)[1..]
                && taken == old(taken) && pending == old(pending) && data == old(data) && AtLineStart(data)
      ensures out.Some? && !SilentNow(old(pipe.arrivals)) ==>
                data == old(data) + out.value && (AtLineStart(data) || Ended(pipe.arrivals))
      ensures out == Some([]) ==> Ended(pipe.arrivals) && pending == []
      ensures out != Some([]) ==>
                Size(pipe.arrivals) < Size(old(pipe.arrivals))
                    || (out.Some? && pipe.arrivals == old(pipe.arrivals) && |pending| < |old(pending)|)
      ensures if taken == old(taken) then lastActivity == old(lastActivity)
              else lastActivity == now && |taken| > |old(taken)|
    {
      var ready := pipe.Select();
      if !ready {
        Pad();
        return Some([NEWLINE]);
      }
      out := Arrived(size, now);
    }

    /** What is ready in the pipe: bytes, or its end. */
    method Arrived(size: nat, now: int) returns (out: Option<seq<byte>>)
      requires Valid() && size > 0 && !SilentNow(pipe.arrivals)
      modifies this, pipe
      ensures Valid() && Padding() == old(Padding())
      ensures taken + Remaining(pipe.arrivals) == old(taken) + Remaining(old(pipe.arrivals))
      ensures out.None? ==> given == old(given) && data == old(data)
      ensures out.Some? ==> given == old(given) + out.value && data == old(data) + out.value
      ensures out.Some? ==> AtLineStart(data) || Ended(pipe.arrivals)
      ensures out == Some([]) ==> Ended(pipe.arrivals) && pending == []
      ensures out != Some([]) ==>
                Size(pipe.arrivals) < Size(old(pipe.arrivals))
                    || (out.Some? && pipe.arrivals == old(pipe.arrivals) && |pending| < |old(pending)|)
      ensures if taken == old(taken) then lastActivity == old(lastActivity)
              else lastActivity == now && |taken| > |old(taken)|
    {
      var chunk := pipe.ReadReady(size);
      if chunk == [] {
        var tail := Flush();
        return Some(tail);
      }
      Regroup(taken, chunk, Remaining(pipe.arrivals));
      out := Take(chunk, now);
    }

    ghost method Pad()
      requires Kept() && AtLineStart(data)
      modifies this`given
      ensures Kept() && given == old(given) + [NEWLINE]
    {
      PaddedByNewline(given, data);
      given := given + [NEWLINE];
    }

    /** The held-back tail goes out as it is. */
    method Flush() returns (tail: seq<byte>)
      requires Kept()
      modifies this`pending, this`given, this`data
      ensures Kept() && pending == [] && tail == old(pending)
      ensures given == old(given) + tail && data == old(data) + tail
    {
      tail := pending;
      pending := [];
      HandOut(tail);
    }

    ghost method HandOut(chunk: seq<byte>)
      requires Padded(given, data)
      modifies this`given, this`data
      ensures given == old(given) + chunk && data == old(data) + chunk && Padded(given, data)
    {
      PaddedByData(given, data, chunk);
      given, data := given + chunk, data + chunk;
    }

    /** Bytes arrived: whole lines go out, the rest waits for its end. */
    method Take(chunk: seq<byte>, now: int) returns (out: Option<seq<byte>>)
      requires Kept() && AtLineStart(data)
      modifies this
      ensures Kept() && AtLineStart(data) && taken == old(taken) + chunk && lastActivity == now
      ensures out.None? ==> given == old(given) && data == old(data)
      ensures out.Some? ==> out.value != [] && given == old(given) + out.value && data == old(data) + out.value
    {
      lastActivity := now;
      bytesRead := bytesRead + |chunk|;
      taken := taken + chunk;
      var combined := pending + chunk;
      Regroup(data, pending, chunk);
      var cut := AfterLastNewline(combined);
      if cut == 0 {
        pending := combined;
        return None;
      }
      CutAt(data, combined, cut);
      pending := combined[cut..];
      HandOut(combined[..cut]);
      return Some(combined[..cut]);
    }
  }

  /**
   * The whole upload: reads until one comes back empty. Whatever the schedule of bytes and
   * silences, the body is the output byte for byte with bare newlines put in at line boundaries,
   * one for every silence; `bytesRead` counts just the output, and a consumer that skips blank lines
   * reads the lines of the output.
   */
  method Upload(reader: ActivityTrackingReader, size: nat, now: int) returns (body: seq<byte>)
    requires reader.Valid() && size > 0 && reader.taken == reader.given == []
    modifies reader, reader.pipe
    ensures Padded(body, old(Remaining(reader.pipe.arrivals)))
    ensures |body| == |old(Remaining(reader.pipe.arrivals))| + old(Silences(reader.pipe.arrivals))
    ensures reader.bytesRead == |old(Remaining(reader.pipe.arrivals))|
    ensures NonBlankLines(body) == NonBlankLines(old(Remaining(reader.pipe.arrivals)))
  {
    ghost var output := Remaining(reader.pipe.arrivals);
    body := [];
    while true
      invariant reader.Valid() && body == reader.given
      invariant reader.taken + Remaining(reader.pipe.arrivals) == output
      invariant reader.Padding() == old(reader.Padding())
      decreases Size(reader.pipe.arrivals), |reader.pending|
    {
      var r := reader.Read(Some(size), now);
      body := body + r.value;
      if r.value == [] {
        break;
      }
    }
    assert reader.taken == output && reader.data == output;
    PaddedReadsTheSame(body, output);
    assert body + [] == body && output + [] == output;
  }
}
