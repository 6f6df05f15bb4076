/**
 * The repository's measured size after each plotted archive (app/api/archive_index.py,
 * `_attach_repository_sizes`): one cursor walks the samples once and gives every point what a
 * search of all samples would give it.
 */
module RepositorySizes {
  import opened Wrappers

  datatype Point = Point(start: int, repositorySize: Option<int>)
  datatype Sample = Sample(measuredAt: int, sizeBytes: int)

  predicate Ascending(times: seq<int>) {
    forall i, j :: 0 <= i < j < |times| ==> times[i] <= times[j]
  }

  predicate SamplesAscend(samples: seq<Sample>) {
    forall i, j :: 0 <= i < j < |samples| ==> samples[i].measuredAt <= samples[j].measuredAt
  }

  // ---- The slow specification

  /** The start of the first archive after `start`, or None for the newest. */
  function NextStart(boundaries: seq<int>, start: int): Option<int> {
    if boundaries == [] then None
    else if boundaries[0] > start then Some(boundaries[0])
    else NextStart(boundaries[1..], start)
  }

  predicate Within(at: int, lower: int, upper: Option<int>) {
    lower <= at && (upper.Some? ==> at < upper.value)
  }

  /** The size of the last sample taken in the window. */
  function LastWithin(samples: seq<Sample>, lower: int, upper: Option<int>): Option<int> {
    if samples == [] then None
    else if Within(samples[|samples| - 1].measuredAt, lower, upper) then Some(samples[|samples| - 1].sizeBytes)
    else LastWithin(samples[..|samples| - 1], lower, upper)
  }

  function SizeAfter(samples: seq<Sample>, boundaries: seq<int>, point: Point): Point {
    var size := LastWithin(samples, point.start, NextStart(boundaries, point.start));
    if size.Some? then point.(repositorySize := size) else point
  }

  /** What the two searches mean. */
  lemma {:induction false} NextStartIsNext(boundaries: seq<int>, start: int)
    requires Ascending(boundaries)
    ensures var next := NextStart(boundaries, start);
            if next.Some? then
              && next.value in boundaries && next.value > start
              && forall b :: b in boundaries && b > start ==> next.value <= b
            else forall b :: b in boundaries ==> b <= start
  {
    if boundaries != [] {
      assert boundaries == [boundaries[0]] + boundaries[1..];
      forall b | b in boundaries ensures boundaries[0] <= b {
        var i :| 0 <= i < |boundaries| && boundaries[i] == b;
      }
      if boundaries[0] <= start {
        NextStartIsNext(boundaries[1..], start);
      }
    }
  }

  /** Sample `i` was taken in the window, and none after it was. */
  predicate IsLastWithin(samples: seq<Sample>, lower: int, upper: Option<int>, i: int) {
    && 0 <= i < |samples| && Within(samples[i].measuredAt, lower, upper)
    && forall k :: i < k < |samples| ==> !Within(samples[k].measuredAt, lower, upper)
  }

  lemma {:induction false} LastWithinIsLast(samples: seq<Sample>, lower: int, upper: Option<int>)
    ensures var size := LastWithin(samples, lower, upper);
            if size.None? then forall i :: 0 <= i < |samples| ==> !Within(samples[i].measuredAt, lower, upper)
            else exists i :: IsLastWithin(samples, lower, upper, i) && samples[i].sizeBytes == size.value
    decreases |samples|
  {
    if samples != [] {
      var n := |samples| - 1;
      if Within(samples[n].measuredAt, lower, upper) {
        assert IsLastWithin(samples, lower, upper, n);
      } else {
        var front := samples[..n];
        LastWithinIsLast(front, lower, upper);
        if LastWithin(front, lower, upper).Some? {
          var i :| IsLastWithin(front, lower, upper, i) && front[i].sizeBytes == LastWithin(front, lower, upper).value;
          assert samples[i] == front[i] && forall k :: i < k < n ==> samples[k] == front[k];
          assert IsLastWithin(samples, lower, upper, i);
        } else {
          assert forall k :: 0 <= k < n ==> samples[k] == front[k];
        }
      }
    }
  }

  /** The sample was taken at or after the point's start, and before every later boundary. */
  predicate BelongsTo(sample: Sample, boundaries: seq<int>, point: Point) {
    && point.start <= sample.measuredAt
    && forall b :: b in boundaries && b > point.start ==> sample.measuredAt < b
  }

  /** A point's size is that of the last sample between its start and the next later boundary, or
      what it had when there is none; its start stays. */
  lemma {:induction false} SizeIsOfLastSample(samples: seq<Sample>, boundaries: seq<int>, point: Point)
    requires Ascending(boundaries)
    ensures var after := SizeAfter(samples, boundaries, point);
            if forall i :: 0 <= i < |samples| ==> !BelongsTo(samples[i], boundaries, point) then after == point
            else exists i :: 0 <= i < |samples| && BelongsTo(samples[i], boundaries, point)
                             && (forall k :: i < k < |samples| ==> !BelongsTo(samples[k], boundaries, point))
                             && after == Point(point.start, Some(samples[i].sizeBytes))
  {
    var upper := NextStart(boundaries, point.start);
    NextStartIsNext(boundaries, point.start);
    LastWithinIsLast(samples, point.start, upper);
    assert forall s: Sample :: BelongsTo(s, boundaries, point) <==> Within(s.measuredAt, point.start, upper);
    if LastWithin(samples, point.start, upper).Some? {
      var i :| IsLastWithin(samples, point.start, upper, i)
               && samples[i].sizeBytes == LastWithin(samples, point.start, upper).value;
      assert BelongsTo(samples[i], boundaries, point);
    }
  }

  // ---- The walk

  /** `bisect_right`: how many boundaries lie at or before `start`. */
  method BisectRight(boundaries: seq<int>, start: int) returns (after: nat)
    requires Ascending(boundaries)
    ensures after <= |boundaries|
    ensures forall i :: 0 <= i < after ==> boundaries[i] <= start
    ensures forall i :: after <= i < |boundaries| ==> boundaries[i] > start
  {
    var low, high := 0, |boundaries|;
    while low < high
      invariant 0 <= low <= high <= |boundaries|
      invariant forall i :: 0 <= i < low ==> boundaries[i] <= start
      invariant forall i :: high <= i < |boundaries| ==> boundaries[i] > start
    {
      var mid := (low + high) / 2;
      if start < boundaries[mid] {
        high := mid;
      } else {
        low := mid + 1;
      }
    }
    after := low;
  }

  lemma {:induction false} BisectFindsNext(boundaries: seq<int>, start: int, after: nat)
    requires after <= |boundaries|
    requires forall i :: 0 <= i < after ==> boundaries[i] <= start
    requires forall i :: after <= i < |boundaries| ==> boundaries[i] > start
    ensures NextStart(boundaries, start) == if after < |boundaries| then Some(boundaries[after]) else None
  {
    if boundaries != [] && boundaries[0] <= start {
      BisectFindsNext(boundaries[1..], start, after - 1);
    }
  }

  /** Samples split by a window: those before it, those in it, those after it. */
  lemma {:induction false} SplitGivesLast(samples: seq<Sample>, lower: int, upper: Option<int>, from: nat, to: nat)
    requires from <= to <= |samples|
    requires forall k :: 0 <= k < from ==> samples[k].measuredAt < lower
    requires forall k :: from <= k < to ==> Within(samples[k].measuredAt, lower, upper)
    requires forall k :: to <= k < |samples| ==> !Within(samples[k].measuredAt, lower, upper)
    ensures LastWithin(samples, lower, upper) == if from < to then Some(samples[to - 1].sizeBytes) else None
    decreases |samples|
  {
    if samples != [] {
      var n := |samples| - 1;
      if to < |samples| {
        SplitGivesLast(samples[..n], lower, upper, from, to);
      } else if from == |samples| {
        SplitGivesLast(samples[..n], lower, upper, n, n);
      }
    }
  }

  /** An archive that starts later than `start` starts no earlier than the next archive does. */
  lemma {:induction false} LaterStartsFollow(boundaries: seq<int>, start: int, later: int)
    requires Ascending(boundaries) && later in boundaries && later > start
    ensures NextStart(boundaries, start).Some? && NextStart(boundaries, start).value <= later
  {
    NextStartIsNext(boundaries, start);
  }

  /** The cursor has passed the samples before `upper` and no other. */
  predicate Passed(samples: seq<Sample>, cursor: nat, upper: Option<int>) {
    && cursor <= |samples|
    && (forall k :: 0 <= k < cursor && upper.Some? ==> samples[k].measuredAt < upper.value)
    && (forall k :: cursor <= k < |samples| ==> upper.Some? && samples[k].measuredAt >= upper.value)
  }

  /** Move the cursor over one window. */
  method WalkWindow(samples: seq<Sample>, cursor: nat, lower: int, upper: Option<int>)
          returns (next: nat, last: Option<int>)
    requires SamplesAscend(samples) && cursor <= |samples| && (upper.Some? ==> lower < upper.value)
    requires forall k :: 0 <= k < cursor ==> samples[k].measuredAt < lower
    ensures next >= cursor && Passed(samples, next, upper) && last == LastWithin(samples, lower, upper)
  {
    next := cursor;
    while next < |samples| && samples[next].measuredAt < lower
      invariant cursor <= next <= |samples|
      invariant forall k :: 0 <= k < next ==> samples[k].measuredAt < lower
    {
      next := next + 1;
    }
    ghost var from := next;
    last := None;
    while next < |samples| && (upper.None? || samples[next].measuredAt < upper.value)
      invariant from <= next <= |samples|
      invariant forall k :: from <= k < next ==> Within(samples[k].measuredAt, lower, upper)
      invariant last == if from < next then Some(samples[next - 1].sizeBytes) else None
    {
      last := Some(samples[next].sizeBytes);
      next := next + 1;
    }
    SplitGivesLast(samples, lower, upper, from, next);
  }

  method AttachRepositorySizes(points: array<Point>, boundaries: seq<int>, samples: seq<Sample>)
    requires Ascending(boundaries) && SamplesAscend(samples)
    requires forall i, j :: 0 <= i < j < points.Length ==> points[i].start <= points[j].start
    requires forall i :: 0 <= i < points.Length ==> points[i].start in boundaries
    modifies points
    ensures forall i :: 0 <= i < points.Length ==> points[i] == SizeAfter(samples, boundaries, old(points[i]))
  {
    if points.Length == 0 {
      return;
    }
    if samples == [] {
      return;
    }
    var cursor := 0;
    var window: Option<(int, Option<int>)> := None;
    var last: Option<int> := None;
    for n := 0 to points.Length
      invariant n == 0 ==> window.None? && cursor == 0
      invariant n > 0 ==>
                  var start := old(points[n - 1]).start; var upper := NextStart(boundaries, start);
                  window == Some((start, upper)) && last == LastWithin(samples, start, upper)
                      && Passed(samples, cursor, upper)
      invariant forall i :: 0 <= i < n ==> points[i] == SizeAfter(samples, boundaries, old(points[i]))
      invariant forall i :: n <= i < points.Length ==> points[i] == old(points[i])
    {
      var point := points[n];
      var lower := point.start;
      var after := BisectRight(boundaries, lower);
      BisectFindsNext(boundaries, lower, after);
      NextStartIsNext(boundaries, lower);
      var upper := if after < |boundaries| then Some(boundaries[after]) else None;
      if window != Some((lower, upper)) {
        if n > 0 {
          LaterStartsFollow(boundaries, old(points[n - 1]).start, lower);
        }
        window := Some((lower, upper));
        cursor, last := WalkWindow(samples, cursor, lower, upper);
      }
      if last.Some? {
        points[n] := point.(repositorySize := last);
      }
    }
  }
}
