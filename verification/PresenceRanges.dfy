/**
 * In which archives of a series a path was present (app/api/archive_index.py, `present_ranges`):
 * one pass over the change entries of all series, with a map from series to its open range that
 * shares the range objects with the result.
 */
module PresenceRanges {
  import opened Wrappers

  datatype Change = Added | Modified | Removed | Other
  datatype Entry = Entry(series: string, archiveId: int, change: Change)

  /** A range in archive ids, or, for reasoning about what it covers, in entry positions. */
  datatype Range = Range(series: string, from: int, to: Option<int>)

  predicate Present(c: Change) {
    c == Added || c == Modified
  }

  // ---- Specification: a list of ranges, searched for the open ones

  predicate IsOpen(r: Range, series: string) {
    r.series == series && r.to.None?
  }

  function OpenCount(ranges: seq<Range>, series: string): nat {
    if ranges == [] then 0
    else OpenCount(ranges[..|ranges| - 1], series) + (if IsOpen(ranges[|ranges| - 1], series) then 1 else 0)
  }

  function CloseOne(r: Range, series: string, mark: int): Range {
    if IsOpen(r, series) then r.(to := Some(mark)) else r
  }

  function Close(ranges: seq<Range>, series: string, mark: int): (closed: seq<Range>)
    ensures |closed| == |ranges|
    ensures forall k :: 0 <= k < |ranges| ==> closed[k] == CloseOne(ranges[k], series, mark)
  {
    seq(|ranges|, k requires 0 <= k < |ranges| => CloseOne(ranges[k], series, mark))
  }

  function Step(ranges: seq<Range>, e: Entry, mark: int): seq<Range> {
    if Present(e.change) then
      if OpenCount(ranges, e.series) > 0 then ranges else ranges + [Range(e.series, mark, None)]
    else if e.change == Removed then Close(ranges, e.series, mark)
    else ranges
  }

  /** The ranges after the first `n` entries, marked by archive id or by position. */
  function RangesOf(entries: seq<Entry>, n: nat, positions: bool): seq<Range>
    requires n <= |entries|
  {
    if n == 0 then []
    else Step(RangesOf(entries, n - 1, positions), entries[n - 1], if positions then n - 1
        else entries[n - 1].archiveId)
  }

  /** The last add, modify or remove entry of the series before `n` is not a removal. */
  function PresentAt(entries: seq<Entry>, n: nat, series: string): bool
    requires n <= |entries|
  {
    if n == 0 then false
    else
      var e := entries[n - 1];
      if e.series == series && Present(e.change) then true
      else if e.series == series && e.change == Removed then false
      else PresentAt(entries, n - 1, series)
  }

  // ---- At most one open range

  lemma {:induction false} OpenCountAppend(ranges: seq<Range>, r: Range, series: string)
    ensures OpenCount(ranges + [r], series) == OpenCount(ranges, series) + (if IsOpen(r, series) then 1 else 0)
  {
    assert (ranges + [r])[..|ranges|] == ranges;
  }

  lemma {:induction false} OpenCountClose(ranges: seq<Range>, closing: string, mark: int, series: string)
    ensures OpenCount(Close(ranges, closing, mark), series) == if series == closing then 0
            else OpenCount(ranges, series)
    decreases |ranges|
  {
    if ranges != [] {
      var front := ranges[..|ranges| - 1];
      OpenCountClose(front, closing, mark, series);
      assert Close(ranges, closing, mark)[..|front|] == Close(front, closing, mark);
    }
  }

  /** A series has one open range while its last relevant entry is not a removal, and none
      otherwise. */
  lemma {:induction false} OneOpenExactlyWhilePresent(entries: seq<Entry>, n: nat, positions: bool, series: string)
    requires n <= |entries|
    ensures OpenCount(RangesOf(entries, n, positions), series) == if PresentAt(entries, n, series) then 1 else 0
  {
    if n > 0 {
      var before, e := RangesOf(entries, n - 1, positions), entries[n - 1];
      var mark := if positions then n - 1 else e.archiveId;
      OneOpenExactlyWhilePresent(entries, n - 1, positions, series);
      OneOpenExactlyWhilePresent(entries, n - 1, positions, e.series);
      if Present(e.change) {
        OpenCountAppend(before, Range(e.series, mark, None), series);
      } else if e.change == Removed {
        OpenCountClose(before, e.series, mark, series);
      }
    }
  }

  // ---- Every presence in exactly one range

  predicate Covers(r: Range, series: string, position: int) {
    r.series == series && r.from <= position && (r.to.Some? ==> position < r.to.value)
  }

  function CoverCount(ranges: seq<Range>, series: string, position: int): nat {
    if ranges == [] then 0
    else
      CoverCount(ranges[..|ranges| - 1], series, position)
      + (if Covers(ranges[|ranges| - 1], series, position) then 1 else 0)
  }

  lemma {:induction false} MarksAreBehind(entries: seq<Entry>, n: nat, k: nat)
    requires n <= |entries| && k < |RangesOf(entries, n, true)|
    ensures var r := RangesOf(entries, n, true)[k]; r.from < n && (r.to.Some? ==> r.from < r.to.value < n)
  {
    var before := RangesOf(entries, n - 1, true);
    if k < |before| {
      MarksAreBehind(entries, n - 1, k);
    }
  }

  lemma {:induction false} CoverCountClose(ranges: seq<Range>, closing: string, mark: int, series: string,
          position: int)
    requires position < mark
    ensures CoverCount(Close(ranges, closing, mark), series, position) == CoverCount(ranges, series, position)
    decreases |ranges|
  {
    if ranges != [] {
      var front := ranges[..|ranges| - 1];
      CoverCountClose(front, closing, mark, series, position);
      assert Close(ranges, closing, mark)[..|front|] == Close(front, closing, mark);
    }
  }

  /** Past every mark exactly the open ranges cover a position. */
  lemma {:induction false} OpenRangesCover(ranges: seq<Range>, series: string, position: int)
    requires forall k :: 0 <= k < |ranges| ==>
               ranges[k].from <= position && (ranges[k].to.Some? ==> ranges[k].to.value <= position)
    ensures CoverCount(ranges, series, position) == OpenCount(ranges, series)
    decreases |ranges|
  {
    if ranges != [] {
      OpenRangesCover(ranges[..|ranges| - 1], series, position);
    }
  }

  /** A later entry changes nothing about what is covered. */
  lemma {:induction false} StepCovers(ranges: seq<Range>, e: Entry, mark: int, series: string, position: int)
    requires position < mark
    ensures CoverCount(Step(ranges, e, mark), series, position) == CoverCount(ranges, series, position)
  {
    if Present(e.change) {
      assert (ranges + [Range(e.series, mark, None)])[..|ranges|] == ranges;
    } else if e.change == Removed {
      CoverCountClose(ranges, e.series, mark, series, position);
    }
  }

  lemma {:induction false} NewestIsCovered(entries: seq<Entry>, position: nat)
    requires position < |entries| && Present(entries[position].change)
    ensures CoverCount(RangesOf(entries, position + 1, true), entries[position].series, position) == 1
  {
    var ranges := RangesOf(entries, position + 1, true);
    forall k | 0 <= k < |ranges| ensures ranges[k].from <= position
        && (ranges[k].to.Some? ==> ranges[k].to.value <= position) {
      MarksAreBehind(entries, position + 1, k);
    }
    OpenRangesCover(ranges, entries[position].series, position);
    OneOpenExactlyWhilePresent(entries, position + 1, true, entries[position].series);
  }

  lemma {:induction false} EveryPresenceInOneRange(entries: seq<Entry>, n: nat, position: nat)
    requires position < n <= |entries| && Present(entries[position].change)
    ensures CoverCount(RangesOf(entries, n, true), entries[position].series, position) == 1
  {
    if position == n - 1 {
      NewestIsCovered(entries, position);
    } else {
      EveryPresenceInOneRange(entries, n - 1, position);
      StepCovers(RangesOf(entries, n - 1, true), entries[n - 1], n - 1, entries[position].series, position);
    }
  }

  /** The last change of the series that counts, up to and with `k`, put the path there. */
  predicate BroughtAt(entries: seq<Entry>, n: nat, series: string, k: int)
    requires n <= |entries|
  {
    && 0 <= k < n && entries[k].series == series && entries[k].change in {Added, Modified}
    && forall j :: k < j < n && entries[j].series == series ==> entries[j].change != Removed
  }

  ghost predicate Brought(entries: seq<Entry>, n: nat, series: string)
    requires n <= |entries|
  {
    exists k :: BroughtAt(entries, n, series, k)
  }

  lemma {:induction false} PresentMeans(entries: seq<Entry>, n: nat, series: string)
    requires n <= |entries|
    ensures PresentAt(entries, n, series) <==> Brought(entries, n, series)
  {
    if n > 0 {
      var e := entries[n - 1];
      PresentMeans(entries, n - 1, series);
      if e.series == series && Present(e.change) {
        assert BroughtAt(entries, n, series, n - 1);
      } else if PresentAt(entries, n - 1, series) {
        var k :| BroughtAt(entries, n - 1, series, k);
        assert e.series != series || e.change != Removed ==> BroughtAt(entries, n, series, k);
      }
      if Brought(entries, n, series) {
        var k :| BroughtAt(entries, n, series, k);
        assert k < n - 1 ==> BroughtAt(entries, n - 1, series, k);
      }
    }
  }

  /** A position lies in a range of the series, and then in one only, if and only if the path was
      there: it was added or modified then or before, and not removed since. */
  lemma {:induction false} CoveredExactlyWhilePresent(entries: seq<Entry>, n: nat, position: nat, series: string)
    requires position < n <= |entries|
    ensures CoverCount(RangesOf(entries, n, true), series, position)
            == if Brought(entries, position + 1, series) then 1 else 0
  {
    if position == n - 1 {
      var ranges := RangesOf(entries, n, true);
      forall k | 0 <= k < |ranges| ensures ranges[k].from <= position
          && (ranges[k].to.Some? ==> ranges[k].to.value <= position) {
        MarksAreBehind(entries, n, k);
      }
      OpenRangesCover(ranges, series, position);
      OneOpenExactlyWhilePresent(entries, n, true, series);
      PresentMeans(entries, n, series);
    } else {
      CoveredExactlyWhilePresent(entries, n - 1, position, series);
      StepCovers(RangesOf(entries, n - 1, true), entries[n - 1], n - 1, series, position);
    }
  }

  /** A range in archive ids that names the archives at a range of positions before `n`. */
  predicate Names(entries: seq<Entry>, n: nat, id: Range, position: Range)
    requires n <= |entries|
  {
    && 0 <= position.from < n
    && (position.to.Some? ==> 0 <= position.to.value < n)
    && id.series == position.series
    && id.from == entries[position.from].archiveId
    && id.to == if position.to.Some? then Some(entries[position.to.value].archiveId) else None
  }

  predicate AllNamed(entries: seq<Entry>, n: nat, ids: seq<Range>, positions: seq<Range>)
    requires n <= |entries|
  {
    |ids| == |positions| && forall k :: 0 <= k < |ids| ==> Names(entries, n, ids[k], positions[k])
  }

  lemma {:induction false} NamesLater(entries: seq<Entry>, n: nat, ids: seq<Range>, positions: seq<Range>)
    requires n < |entries| && AllNamed(entries, n, ids, positions)
    ensures AllNamed(entries, n + 1, ids, positions)
  {
    forall k | 0 <= k < |ids| ensures Names(entries, n + 1, ids[k], positions[k]) {
      assert Names(entries, n, ids[k], positions[k]);
    }
  }

  lemma {:induction false} CloseNames(entries: seq<Entry>, n: nat, ids: seq<Range>, positions: seq<Range>,
          series: string)
    requires n < |entries| && AllNamed(entries, n, ids, positions)
    ensures AllNamed(entries, n + 1, Close(ids, series, entries[n].archiveId), Close(positions, series, n))
  {
    var closedIds, closedPositions := Close(ids, series, entries[n].archiveId), Close(positions, series, n);
    forall k | 0 <= k < |ids| ensures Names(entries, n + 1, closedIds[k], closedPositions[k]) {
      assert Names(entries, n, ids[k], positions[k]);
    }
  }

  lemma {:induction false} OpenNames(entries: seq<Entry>, n: nat, ids: seq<Range>, positions: seq<Range>,
          series: string)
    requires n < |entries| && AllNamed(entries, n, ids, positions)
    ensures AllNamed(entries, n + 1, ids + [Range(series, entries[n].archiveId, None)],
            positions + [Range(series, n, None)])
  {
    NamesLater(entries, n, ids, positions);
  }

  lemma {:induction false} NextNamed(entries: seq<Entry>, n: nat)
    requires n < |entries| && AllNamed(entries, n, RangesOf(entries, n, false), RangesOf(entries, n, true))
    ensures AllNamed(entries, n + 1, RangesOf(entries, n + 1, false), RangesOf(entries, n + 1, true))
  {
    var ids, positions, e := RangesOf(entries, n, false), RangesOf(entries, n, true), entries[n];
    OpenAlike(entries, n, e.series);
    if Present(e.change) && OpenCount(ids, e.series) == 0 {
      OpenNames(entries, n, ids, positions, e.series);
    } else if e.change == Removed {
      CloseNames(entries, n, ids, positions, e.series);
    } else {
      NamesLater(entries, n, ids, positions);
    }
  }

  lemma {:induction false} IdsNamePositions(entries: seq<Entry>, n: nat)
    requires n <= |entries|
    ensures AllNamed(entries, n, RangesOf(entries, n, false), RangesOf(entries, n, true))
  {
    if n > 0 {
      IdsNamePositions(entries, n - 1);
      NextNamed(entries, n - 1);
    }
  }

  lemma {:induction false} OpenAlike(entries: seq<Entry>, n: nat, series: string)
    requires n <= |entries|
    ensures OpenCount(RangesOf(entries, n, false), series) == OpenCount(RangesOf(entries, n, true), series)
  {
    OneOpenExactlyWhilePresent(entries, n, false, series);
    OneOpenExactlyWhilePresent(entries, n, true, series);
  }

  // ---- Series do not interfere

  function EntriesOf(entries: seq<Entry>, series: string): seq<Entry> {
    if entries == [] then []
    else
      EntriesOf(entries[..|entries| - 1], series)
      + (if entries[|entries| - 1].series == series then [entries[|entries| - 1]] else [])
  }

  function RangesIn(ranges: seq<Range>, series: string): seq<Range> {
    if ranges == [] then []
    else
      RangesIn(ranges[..|ranges| - 1], series)
      + (if ranges[|ranges| - 1].series == series then [ranges[|ranges| - 1]] else [])
  }

  lemma {:induction false} CloseIn(ranges: seq<Range>, closing: string, mark: int, series: string)
    ensures RangesIn(Close(ranges, closing, mark), series)
            == if series == closing then Close(RangesIn(ranges, series), closing, mark) else RangesIn(ranges, series)
    decreases |ranges|
  {
    if ranges != [] {
      var front := ranges[..|ranges| - 1];
      CloseIn(front, closing, mark, series);
      assert Close(ranges, closing, mark)[..|front|] == Close(front, closing, mark);
    }
  }

  lemma {:induction false} OpenCountIn(ranges: seq<Range>, series: string)
    ensures OpenCount(RangesIn(ranges, series), series) == OpenCount(ranges, series)
    decreases |ranges|
  {
    if ranges != [] {
      var front, last := ranges[..|ranges| - 1], ranges[|ranges| - 1];
      OpenCountIn(front, series);
      if last.series == series {
        OpenCountAppend(RangesIn(front, series), last, series);
      } else {
        assert RangesIn(ranges, series) == RangesIn(front, series);
      }
    }
  }

  lemma {:induction false} StepIn(ranges: seq<Range>, e: Entry, mark: int, series: string)
    ensures RangesIn(Step(ranges, e, mark), series)
            == if e.series == series then Step(RangesIn(ranges, series), e, mark) else RangesIn(ranges, series)
  {
    if Present(e.change) {
      OpenCountIn(ranges, e.series);
      assert (ranges + [Range(e.series, mark, None)])[..|ranges|] == ranges;
    } else if e.change == Removed {
      CloseIn(ranges, e.series, mark, series);
    }
  }

  lemma {:induction false} RangesOfPrefix(entries: seq<Entry>, m: nat, n: nat)
    requires m <= n <= |entries|
    ensures RangesOf(entries[..n], m, false) == RangesOf(entries, m, false)
  {
    if m > 0 {
      RangesOfPrefix(entries, m - 1, n);
    }
  }

  /** The ranges in archive ids after all entries. */
  function AllRanges(entries: seq<Entry>): seq<Range> {
    RangesOf(entries, |entries|, false)
  }

  lemma {:induction false} OneMoreEntry(entries: seq<Entry>, e: Entry)
    ensures AllRanges(entries + [e]) == Step(AllRanges(entries), e, e.archiveId)
  {
    var longer := entries + [e];
    assert longer[..|entries|] == entries && longer[|entries|] == e;
    RangesOfPrefix(longer, |entries|, |entries|);
  }

  lemma {:induction false} EntriesOfLast(entries: seq<Entry>, e: Entry, series: string)
    ensures EntriesOf(entries + [e], series)
            == EntriesOf(entries, series) + (if e.series == series then [e] else [])
  {
    assert (entries + [e])[..|entries|] == entries;
  }

  /** The ranges of a series are those its own entries alone would give. */
  lemma {:induction false} OtherSeriesChangeNothing(entries: seq<Entry>, series: string)
    ensures RangesIn(AllRanges(entries), series) == AllRanges(EntriesOf(entries, series))
    decreases |entries|
  {
    if entries != [] {
      var n := |entries| - 1;
      OtherSeriesChangeNothing(entries[..n], series);
      assert entries == entries[..n] + [entries[n]];
      SeriesStaysAlone(entries[..n], entries[n], series);
    }
  }

  lemma {:induction false} SeriesStaysAlone(entries: seq<Entry>, e: Entry, series: string)
    requires RangesIn(AllRanges(entries), series) == AllRanges(EntriesOf(entries, series))
    ensures RangesIn(AllRanges(entries + [e]), series) == AllRanges(EntriesOf(entries + [e], series))
  {
    OneMoreEntry(entries, e);
    EntriesOfLast(entries, e, series);
    StepIn(AllRanges(entries), e, e.archiveId, series);
    if e.series == series {
      OneMoreEntry(EntriesOf(entries, series), e);
    } else {
      assert EntriesOf(entries, series) + [] == EntriesOf(entries, series);
    }
  }

  // ---- The pass

  class PresentRange {
    const series: string
    const fromArchiveId: int
    var toArchiveId: Option<int>

    constructor (series: string, from: int)
      ensures this.series == series && fromArchiveId == from && toArchiveId.None?
    {
      this.series, fromArchiveId, toArchiveId := series, from, None;
    }

    ghost function Value(): Range
      reads this
    {
      Range(series, fromArchiveId, toArchiveId)
    }
  }

  lemma {:induction false} OpenCountZero(ranges: seq<Range>, series: string)
    ensures OpenCount(ranges, series) == 0 <==> forall k :: 0 <= k < |ranges| ==> !IsOpen(ranges[k], series)
    decreases |ranges|
  {
    if ranges != [] {
      OpenCountZero(ranges[..|ranges| - 1], series);
    }
  }

  /** The objects hold the ranges of the specification. */
  ghost predicate Holds(ranges: seq<PresentRange>, values: seq<Range>)
    reads ranges
  {
    |ranges| == |values| && forall k :: 0 <= k < |ranges| ==> ranges[k].Value() == values[k]
  }

  /** The map points into the list, at the one open range of each series that has one. */
  ghost predicate Indexed(ranges: seq<PresentRange>, open: map<string, PresentRange>)
    reads ranges
  {
    && (forall i, j :: 0 <= i < j < |ranges| ==> ranges[i] != ranges[j])
    && (forall series :: series in open ==> open[series] in ranges && open[series].series == series)
    && (forall k :: 0 <= k < |ranges| ==>
          (ranges[k].toArchiveId.None? <==> ranges[k].series in open && open[ranges[k].series] == ranges[k]))
  }

  lemma {:induction false} OpenInMap(ranges: seq<PresentRange>, open: map<string, PresentRange>, values: seq<Range>,
          series: string)
    requires Indexed(ranges, open) && Holds(ranges, values)
    ensures series in open <==> OpenCount(values, series) > 0
  {
    OpenCountZero(values, series);
    if series in open {
      var k :| 0 <= k < |ranges| && ranges[k] == open[series];
      assert ranges[k].Value() == values[k] && IsOpen(values[k], series);
    } else {
      forall k | 0 <= k < |values| ensures !IsOpen(values[k], series) {
        assert ranges[k].Value() == values[k];
      }
    }
  }

  /** A removal closes the range the map points at, and with it the only open one. */
  method CloseRange(ranges: seq<PresentRange>, open: map<string, PresentRange>, ghost values: seq<Range>,
          series: string, archiveId: int)
    returns (left: map<string, PresentRange>)
    requires Indexed(ranges, open) && Holds(ranges, values) && series in open
    modifies open[series]
    ensures Indexed(ranges, left) && Holds(ranges, Close(values, series, archiveId))
  {
    var current := open[series];
    current.toArchiveId := Some(archiveId);
    left := open - {series};
  }

  /** The body of the loop: one more entry. */
  method Take(ranges: seq<PresentRange>, open: map<string, PresentRange>, entries: seq<Entry>, n: nat)
    returns (more: seq<PresentRange>, left: map<string, PresentRange>)
    requires n < |entries| && Indexed(ranges, open) && Holds(ranges, RangesOf(entries, n, false))
    modifies ranges
    ensures Indexed(more, left) && Holds(more, RangesOf(entries, n + 1, false))
    ensures forall k :: 0 <= k < |more| ==> more[k] in ranges || fresh(more[k])
  {
    var e := entries[n];
    ghost var values := RangesOf(entries, n, false);
    OpenInMap(ranges, open, values, e.series);
    OpenCountZero(values, e.series);
    more, left := ranges, open;
    if Present(e.change) {
      if e.series !in open {
        var current := new PresentRange(e.series, e.archiveId);
        more := ranges + [current];
        left := open[e.series := current];
      }
    } else if e.change == Removed && e.series in open {
      left := CloseRange(ranges, open, values, e.series, e.archiveId);
    }
  }

  method PresentRanges(entries: seq<Entry>) returns (ranges: seq<PresentRange>)
    ensures fresh(ranges)
    ensures Holds(ranges, RangesOf(entries, |entries|, false))
  {
    ranges := [];
    var open: map<string, PresentRange> := map[];
    for n := 0 to |entries|
      invariant fresh(ranges)
      invariant Indexed(ranges, open)
      invariant Holds(ranges, RangesOf(entries, n, false))
    {
      ranges, open := Take(ranges, open, entries, n);
    }
  }
}
