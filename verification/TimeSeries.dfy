/** Display bins of a time-series panel (src/dashboard-charts.jsx): the capped
    intervals, the two scans that fill bins and the cumulative line, and the
    hover lookup.  Times and positions are exact reals. */
module TimeSeries {
  import opened Wrappers

  datatype Range = Range(start: real, end: real)

  datatype Interval = Interval(start: real, end: real)

  datatype Event = Event(ts: real, value: int)

  datatype Bin = Bin(start: real, end: real, sum: int, count: nat)

  datatype Point = Point(ts: real, v: int, binIdx: int)

  // ------------------------------------------------------------------
  // Intervals
  // ------------------------------------------------------------------

  predicate ValidRange(range: Range, width: real) {
    range.start < range.end && 0.0 < width
  }

  function Min(a: real, b: real): real {
    if a <= b then a else b
  }

  ghost predicate Cut(bins: seq<Interval>, range: Range, width: real) {
    forall i | 0 <= i < |bins| ::
      && bins[i].start == range.start + i as real * width
      && bins[i].start < range.end
      && bins[i].end == Min(bins[i].start + width, range.end)
  }

  /** The bins tile the range: equal widths from its start, the last capped at its end. */
  ghost predicate Tiles(bins: seq<Interval>, range: Range, width: real) {
    && bins != []
    && Cut(bins, range, width)
    && bins[|bins| - 1].end == range.end
  }

  /** Bins that still fit in a stretch of length x, less one. */
  ghost function StepsLeft(x: real, w: real): int
    requires 0.0 < w
  {
    (x / w).Floor
  }

  lemma OneStepLess(x: real, w: real)
    requires 0.0 < w
    ensures StepsLeft(x - w, w) == StepsLeft(x, w) - 1
  {
    var q := x / w;
    ScaledBack(x, q, w);
    QuotientIs(x - w, q - 1.0, w);
  }

  lemma ScaledBack(x: real, q: real, w: real)
    requires 0.0 < w && q == x / w
    ensures (q - 1.0) * w == x - w
  {
    assert q * w == x;
  }

  lemma QuotientIs(a: real, q: real, w: real)
    requires 0.0 < w && q * w == a
    ensures a / w == q
  {
    assert (a / w - q) * w == 0.0;
  }

  lemma StepsNonNegative(x: real, w: real)
    requires 0.0 < w && 0.0 < x
    ensures 0 <= StepsLeft(x, w)
  {
    assert 0.0 < x / w;
  }

  /** None models the thrown TypeError. */
  method BoundedTimeIntervals(range: Range, width: real) returns (r: Option<seq<Interval>>)
    ensures r.Some? <==> ValidRange(range, width)
    ensures r.Some? ==> Tiles(r.value, range, width)
  {
    if range.end <= range.start || width <= 0.0 {
      return None;
    }
    hide StepsLeft, Cut, StartOf, CutSoFar, Tiles;
    NothingCut(range, width);
    var bins: seq<Interval> := [];
    var start := range.start;
    while start < range.end
      invariant CutSoFar(bins, start, range, width)
      decreases StepsLeft(range.end - start, width)
    {
      OneStepLess(range.end - start, width);
      StepsNonNegative(range.end - start, width);
      CutNext(bins, start, range, width);
      assert range.end - (start + width) == range.end - start - width;
      bins := bins + [Interval(start, Min(start + width, range.end))];
      start := start + width;
    }
    AllCut(bins, start, range, width);
    return Some(bins);
  }

  function StartOf(range: Range, n: nat, width: real): real {
    range.start + n as real * width
  }

  /** The loop's bins so far, the next one to begin at `start`. */
  ghost predicate CutSoFar(bins: seq<Interval>, start: real, range: Range, width: real) {
    && start == StartOf(range, |bins|, width)
    && Cut(bins, range, width)
    && (bins == [] ==> start == range.start)
    && (bins != [] ==> bins[|bins| - 1].end == Min(start, range.end))
  }

  lemma NothingCut(range: Range, width: real)
    ensures CutSoFar([], range.start, range, width)
  {
  }

  lemma CutNext(bins: seq<Interval>, start: real, range: Range, width: real)
    requires CutSoFar(bins, start, range, width) && start < range.end
    ensures CutSoFar(bins + [Interval(start, Min(start + width, range.end))], start + width, range, width)
  {
    NextStart(range.start, |bins|, width);
  }

  lemma AllCut(bins: seq<Interval>, start: real, range: Range, width: real)
    requires CutSoFar(bins, start, range, width) && ValidRange(range, width) && range.end <= start
    ensures Tiles(bins, range, width)
  {
    hide Cut, StartOf;
  }

  lemma NextStart(start: real, n: nat, width: real)
    ensures start + (n + 1) as real * width == start + n as real * width + width
  {
  }

  /** Adjacent bins share their boundary, so bin starts increase. */
  lemma TilesAdjoin(bins: seq<Interval>, range: Range, width: real, i: nat)
    requires Tiles(bins, range, width) && 0.0 < width && i + 1 < |bins|
    ensures bins[i].end == bins[i + 1].start && bins[i].start < bins[i].end
  {
    NextStart(range.start, i, width);
    assert bins[i + 1].start == bins[i].start + width;
  }

  lemma {:induction false} TilesOrdered(bins: seq<Interval>, range: Range, width: real, i: nat, j: nat)
    requires Tiles(bins, range, width) && ValidRange(range, width) && i < j < |bins|
    ensures bins[i].end <= bins[j].start
    decreases j
  {
    TilesAdjoin(bins, range, width, j - 1);
    if i < j - 1 {
      TilesOrdered(bins, range, width, i, j - 1);
    }
  }

  /** Does bin i, the first taking everything earlier, hold time t? */
  predicate InBin(bins: seq<Interval>, i: nat, t: real)
    requires i < |bins|
  {
    t < bins[i].end && (i == 0 || bins[i].start <= t)
  }

  /** Every time before the range's end lies in exactly one bin. */
  lemma {:induction false} ExactlyOneBin(bins: seq<Interval>, range: Range, width: real, t: real,
                                         n: nat) returns (i: nat)
    requires Tiles(bins, range, width) && ValidRange(range, width) && n < |bins| && t < bins[n].end
    ensures i <= n && InBin(bins, i, t)
    ensures forall j | 0 <= j < |bins| && InBin(bins, j, t) :: j == i
  {
    if n == 0 || bins[n].start <= t {
      i := n;
    } else {
      TilesAdjoin(bins, range, width, n - 1);
      i := ExactlyOneBin(bins, range, width, t, n - 1);
    }
    forall j | 0 <= j < |bins| && InBin(bins, j, t)
      ensures j == i
    {
      if j < i {
        TilesOrdered(bins, range, width, j, i);
      } else if i < j {
        TilesOrdered(bins, range, width, i, j);
      }
    }
  }

  // ------------------------------------------------------------------
  // The two scans
  // ------------------------------------------------------------------

  /** How many leading events are stamped before t. */
  function Prefix(events: seq<Event>, t: real): nat {
    if events == [] || t <= events[0].ts then 0 else 1 + Prefix(events[1..], t)
  }

  function Sum(events: seq<Event>): int {
    if events == [] then 0 else Sum(events[..|events| - 1]) + events[|events| - 1].value
  }

  ghost predicate ByTime(events: seq<Event>) {
    forall i, j | 0 <= i < j < |events| :: events[i].ts <= events[j].ts
  }

  lemma {:induction false} PrefixIs(events: seq<Event>, t: real)
    ensures Prefix(events, t) <= |events|
    ensures forall i | 0 <= i < Prefix(events, t) :: events[i].ts < t
    ensures Prefix(events, t) < |events| ==> t <= events[Prefix(events, t)].ts
  {
    if events != [] && events[0].ts < t {
      PrefixIs(events[1..], t);
      forall i | 0 <= i < Prefix(events, t) ensures events[i].ts < t {
        if i > 0 {
          assert events[i] == events[1..][i - 1];
        }
      }
    }
  }

  lemma {:induction false} PrefixMonotone(events: seq<Event>, s: real, t: real)
    requires s <= t
    ensures Prefix(events, s) <= Prefix(events, t) <= |events|
  {
    if events != [] && events[0].ts < t {
      PrefixMonotone(events[1..], s, t);
    }
  }

  /** Where bin i's events begin: after everything the bins before it took. */
  function From(bins: seq<Interval>, events: seq<Event>, i: nat): nat
    requires i <= |bins|
  {
    if i == 0 then 0 else Prefix(events, bins[i - 1].end)
  }

  lemma {:induction false} SumConcat(a: seq<Event>, b: seq<Event>)
    ensures Sum(a + b) == Sum(a) + Sum(b)
  {
    if b == [] {
      assert a + b == a;
    } else {
      assert (a + b)[..|a + b| - 1] == a + b[..|b| - 1];
      SumConcat(a, b[..|b| - 1]);
    }
  }

  lemma FromIsOrdered(bins: seq<Interval>, range: Range, width: real, events: seq<Event>, i: nat)
    requires Tiles(bins, range, width) && ValidRange(range, width) && i < |bins|
    ensures From(bins, events, i) <= From(bins, events, i + 1) <= |events|
  {
    PrefixIs(events, bins[i].end);
    if i > 0 {
      TilesAdjoin(bins, range, width, i - 1);
      PrefixMonotone(events, bins[i - 1].end, bins[i].end);
    }
  }

  lemma SumSplit(events: seq<Event>, a: nat, b: nat)
    requires a <= b <= |events|
    ensures Sum(events[..b]) == Sum(events[..a]) + Sum(events[a..b])
  {
    SumConcat(events[..a], events[a..b]);
    assert events[..a] + events[a..b] == events[..b];
  }

  /** The inner `while` of either scan: add up the events stamped before `end`. */
  method Advance(events: seq<Event>, start: nat, base: int, end: real) returns (next: nat, total: int)
    requires start <= Prefix(events, end)
    ensures start <= next == Prefix(events, end) <= |events|
    ensures total == base + Sum(events[start..next])
  {
    PrefixIs(events, end);
    next, total := start, base;
    while next < |events| && events[next].ts < end
      invariant start <= next <= Prefix(events, end) <= |events|
      invariant total == base + Sum(events[start..next])
    {
      assert events[start..next + 1][..next - start] == events[start..next];
      total := total + events[next].value;
      next := next + 1;
    }
  }

  /** Bin i carries its interval, and counts and adds up the events taken for it. */
  ghost predicate Fills(bin: Bin, cells: seq<Interval>, events: seq<Event>, i: nat)
    requires i < |cells|
  {
    var from, to := From(cells, events, i), From(cells, events, i + 1);
    && bin.start == cells[i].start && bin.end == cells[i].end
    && from <= to <= |events|
    && bin.count == to - from
    && bin.sum == Sum(events[from..to])
  }

  ghost predicate Binned(bins: seq<Bin>, cells: seq<Interval>, events: seq<Event>) {
    |bins| == |cells| && forall i | 0 <= i < |cells| :: Fills(bins[i], cells, events, i)
  }

  method FillBins(cells: seq<Interval>, range: Range, width: real, events: seq<Event>) returns (bins: seq<Bin>)
    requires Tiles(cells, range, width) && ValidRange(range, width)
    ensures Binned(bins, cells, events)
  {
    hide Prefix, Sum;
    bins := [];
    var index := 0;
    for i := 0 to |cells|
      invariant |bins| == i
      invariant forall j | 0 <= j < i :: Fills(bins[j], cells, events, j)
      invariant index == From(cells, events, i)
    {
      FromIsOrdered(cells, range, width, events, i);
      var next, sum := Advance(events, index, 0, cells[i].end);
      bins := bins + [Bin(cells[i].start, cells[i].end, sum, next - index)];
      assert Fills(bins[i], cells, events, i);
      index := next;
    }
  }

  /** Point i + 1 stands at bin i's end and carries everything taken so far. */
  ghost predicate Marks(point: Point, cells: seq<Interval>, events: seq<Event>, i: nat)
    requires i < |cells|
  {
    From(cells, events, i + 1) <= |events|
    && point == Point(cells[i].end, Sum(events[..From(cells, events, i + 1)]), i)
  }

  ghost predicate Cumulative(points: seq<Point>, cells: seq<Interval>, range: Range, events: seq<Event>) {
    && |points| == |cells| + 1
    && points[0] == Point(range.start, 0, -1)
    && forall k | 0 < k <= |cells| :: Marks(points[k], cells, events, k - 1)
  }

  method Accumulate(cells: seq<Interval>, range: Range, width: real, events: seq<Event>)
    returns (points: seq<Point>, total: int)
    requires Tiles(cells, range, width) && ValidRange(range, width)
    ensures Cumulative(points, cells, range, events)
    ensures total == points[|cells|].v
  {
    hide Prefix;
    points := [Point(range.start, 0, -1)];
    var index := 0;
    total := 0;
    for i := 0 to |cells|
      invariant |points| == i + 1 && points[0] == Point(range.start, 0, -1)
      invariant index == From(cells, events, i) <= |events|
      invariant total == points[i].v == Sum(events[..index])
      invariant forall k | 0 < k <= i :: Marks(points[k], cells, events, k - 1)
    {
      FromIsOrdered(cells, range, width, events, i);
      var next, sum := Advance(events, index, total, cells[i].end);
      SumSplit(events, index, next);
      points := points + [Point(cells[i].end, sum, i)];
      assert Marks(points[i + 1], cells, events, i);
      index, total := next, sum;
    }
  }

  method BuildTimeSeriesData(events: seq<Event>, range: Range, width: real)
    returns (r: Option<(seq<Bin>, seq<Point>, int)>, ghost cells: seq<Interval>)
    ensures r.Some? <==> ValidRange(range, width)
    ensures r.Some? ==>
      && Tiles(cells, range, width)
      && Binned(r.value.0, cells, events)
      && Cumulative(r.value.1, cells, range, events)
      && r.value.2 == r.value.1[|cells|].v
  {
    var intervals := BoundedTimeIntervals(range, width);
    if intervals.None? {
      return None, [];
    }
    cells := intervals.value;
    var bins := FillBins(intervals.value, range, width, events);
    var points, total := Accumulate(intervals.value, range, width, events);
    return Some((bins, points, total)), cells;
  }

  // ------------------------------------------------------------------
  // What the scans mean
  // ------------------------------------------------------------------

  /** For time-sorted events, the events a bin takes are exactly those it holds. */
  lemma BinTakesWhatItHolds(cells: seq<Interval>, range: Range, width: real, events: seq<Event>, i: nat, e: nat)
    requires Tiles(cells, range, width) && ValidRange(range, width) && ByTime(events)
    requires i < |cells| && e < |events|
    ensures From(cells, events, i) <= e < From(cells, events, i + 1) <==> InBin(cells, i, events[e].ts)
  {
    EarlierThan(events, cells[i].end, e);
    if i > 0 {
      TilesAdjoin(cells, range, width, i - 1);
      EarlierThan(events, cells[i - 1].end, e);
    }
  }

  lemma EarlierThan(events: seq<Event>, t: real, e: nat)
    requires ByTime(events) && e < |events|
    ensures e < Prefix(events, t) <==> events[e].ts < t
  {
    PrefixIs(events, t);
    if Prefix(events, t) < e {
      assert events[Prefix(events, t)].ts <= events[e].ts;
    }
  }

  function BinSums(bins: seq<Bin>): int {
    if bins == [] then 0 else BinSums(bins[..|bins| - 1]) + bins[|bins| - 1].sum
  }

  function BinCounts(bins: seq<Bin>): nat {
    if bins == [] then 0 else BinCounts(bins[..|bins| - 1]) + bins[|bins| - 1].count
  }

  lemma {:induction false} BinsAddUp(bins: seq<Bin>, cells: seq<Interval>, events: seq<Event>, n: nat)
    requires Binned(bins, cells, events) && n <= |bins|
    ensures From(cells, events, n) <= |events|
    ensures BinSums(bins[..n]) == Sum(events[..From(cells, events, n)])
    ensures BinCounts(bins[..n]) == From(cells, events, n)
  {
    hide Prefix;
    if n > 0 {
      BinsAddUp(bins, cells, events, n - 1);
      assert bins[..n][..n - 1] == bins[..n - 1];
      assert Fills(bins[n - 1], cells, events, n - 1);
      SumSplit(events, From(cells, events, n - 1), From(cells, events, n));
    }
  }

  /** The two independent scans agree: point n carries the sum of the first n bins. */
  lemma PointIsPrefixSumOfBins(bins: seq<Bin>, points: seq<Point>, cells: seq<Interval>, range: Range,
                               events: seq<Event>, n: nat)
    requires Binned(bins, cells, events) && Cumulative(points, cells, range, events) && n <= |bins|
    ensures points[n].v == BinSums(bins[..n])
  {
    hide Prefix, Sum;
    BinsAddUp(bins, cells, events, n);
    if n > 0 {
      assert Marks(points[n], cells, events, n - 1);
    }
  }

  /** All bins together hold every event before the range's end once, and the
      reported total is their sum. */
  lemma BinsHoldTheTotal(bins: seq<Bin>, points: seq<Point>, cells: seq<Interval>, range: Range, width: real,
                         events: seq<Event>)
    requires Tiles(cells, range, width)
    requires Binned(bins, cells, events) && Cumulative(points, cells, range, events)
    ensures Prefix(events, range.end) <= |events|
    ensures points[|cells|].v == BinSums(bins) == Sum(events[..Prefix(events, range.end)])
    ensures BinCounts(bins) == Prefix(events, range.end)
  {
    PointIsPrefixSumOfBins(bins, points, cells, range, events, |bins|);
    BinsAddUp(bins, cells, events, |bins|);
    assert bins[..|bins|] == bins;
  }

  // ------------------------------------------------------------------
  // Hover
  // ------------------------------------------------------------------

  function TimeX(ts: real, range: Range, padL: real, plotW: real): real
    requires range.start < range.end
  {
    padL + ((ts - range.start) / (range.end - range.start)) * plotW
  }

  predicate Hovers(bins: seq<Interval>, i: nat, ts: real)
    requires i < |bins|
  {
    bins[i].start <= ts && (ts < bins[i].end || (i == |bins| - 1 && ts == bins[i].end))
  }

  function FindBin(bins: seq<Interval>, ts: real, from: nat): int
    requires from <= |bins|
    decreases |bins| - from
  {
    if from == |bins| then -1 else if Hovers(bins, from, ts) then from else FindBin(bins, ts, from + 1)
  }

  function TimeAtX(x: real, range: Range, padL: real, plotW: real): real
    requires plotW != 0.0
  {
    range.start + ((x - padL) / plotW) * (range.end - range.start)
  }

  function TimeBinIndexAtX(bins: seq<Interval>, range: Range, padL: real, plotW: real, x: real): int
    requires plotW != 0.0
  {
    if bins == [] || x < padL || padL + plotW < x then -1
    else FindBin(bins, TimeAtX(x, range, padL, plotW), 0)
  }

  lemma {:induction false} FindBinFinds(bins: seq<Interval>, ts: real, from: nat, i: nat)
    requires from <= i < |bins| && Hovers(bins, i, ts)
    requires forall j | 0 <= j < |bins| && Hovers(bins, j, ts) :: j == i
    ensures FindBin(bins, ts, from) == i
    decreases i - from
  {
    if from < i {
      FindBinFinds(bins, ts, from + 1, i);
    }
  }

  lemma OneBinHovers(bins: seq<Interval>, range: Range, width: real, ts: real, i: nat, j: nat)
    requires Tiles(bins, range, width) && ValidRange(range, width)
    requires i < |bins| && j < |bins| && Hovers(bins, i, ts) && Hovers(bins, j, ts)
    ensures i == j
  {
    hide Tiles;
    if i < j {
      TilesOrdered(bins, range, width, i, j);
    } else if j < i {
      TilesOrdered(bins, range, width, j, i);
    }
  }

  lemma HolderHovers(bins: seq<Interval>, range: Range, width: real, ts: real, i: nat)
    requires Tiles(bins, range, width) && ValidRange(range, width)
    requires range.start <= ts <= range.end && i < |bins|
    requires if ts == range.end then i == |bins| - 1 else InBin(bins, i, ts)
    ensures Hovers(bins, i, ts)
  {
    assert bins[0].start == range.start;
    assert bins[|bins| - 1].start < range.end;
  }

  /** Hovering at a time's own x position selects the bin holding that time, the
      range's end belonging to the last bin. */
  lemma HoverSelectsTheHoldingBin(bins: seq<Interval>, range: Range, width: real, padL: real, plotW: real,
                                  ts: real, i: nat)
    requires Tiles(bins, range, width) && ValidRange(range, width) && 0.0 < plotW
    requires range.start <= ts <= range.end && i < |bins|
    requires if ts == range.end then i == |bins| - 1 else InBin(bins, i, ts)
    ensures TimeBinIndexAtX(bins, range, padL, plotW, TimeX(ts, range, padL, plotW)) == i
  {
    hide TimeX, TimeAtX, FindBin, Hovers, Tiles;
    PositionUndone(ts, range, padL, plotW);
    HolderHovers(bins, range, width, ts, i);
    forall j | 0 <= j < |bins| && Hovers(bins, j, ts)
      ensures j == i
    {
      OneBinHovers(bins, range, width, ts, i, j);
    }
    FindBinFinds(bins, ts, 0, i);
  }

  lemma PositionUndone(ts: real, range: Range, padL: real, plotW: real)
    requires range.start < range.end && 0.0 < plotW && range.start <= ts <= range.end
    ensures var x := TimeX(ts, range, padL, plotW);
            padL <= x <= padL + plotW
            && TimeAtX(x, range, padL, plotW) == ts
  {
    var span := range.end - range.start;
    var f := (ts - range.start) / span;
    assert f * span == ts - range.start;
    FractionBounds(ts - range.start, span);
    Scale(f, plotW);
    assert (f * plotW) / plotW == f;
  }

  lemma FractionBounds(a: real, b: real)
    requires 0.0 <= a <= b && 0.0 < b
    ensures 0.0 <= a / b <= 1.0
  {
  }

  lemma Scale(f: real, w: real)
    requires 0.0 <= f <= 1.0 && 0.0 < w
    ensures 0.0 <= f * w <= w
  {
  }
}
