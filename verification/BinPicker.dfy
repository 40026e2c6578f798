/** The two bucket pickers (backend/api.py `_bucket_seconds`, src/app.jsx
    `dashboardBinMs`), the widened range (src/app.jsx `backendAggregateRange`),
    and why no server aggregate is split across display bins. */
module BinPicker {
  import opened Wrappers
  import TimeSeries

  const DAY: int := 86400

  /** The server's candidates in seconds; the client's are these in milliseconds. */
  const CANDIDATES: seq<int> := [60, 300, 900, 1800, 3600, 21600, 43200, 86400]

  const SECOND: int := 1000

  /** `b` is the coarsest candidate cutting the span into at least 100 pieces,
      or the finest candidate when none does. */
  ghost predicate Coarsest(b: int, span: int, unit: int) {
    && (exists k | 0 <= k < |CANDIDATES| :: b == CANDIDATES[k] * unit)
    && (100 * b <= span || b == CANDIDATES[0] * unit)
    && (forall k | 0 <= k < |CANDIDATES| && 100 * (CANDIDATES[k] * unit) <= span :: CANDIDATES[k] * unit <= b)
  }

  lemma CandidatesAscend(i: nat, j: nat)
    requires i <= j < |CANDIDATES|
    ensures 0 < CANDIDATES[i] <= CANDIDATES[j] <= DAY
  {
  }

  /** Any two candidates divide one another: they form a chain. */
  lemma CandidatesChain(i: nat, j: nat)
    requires i <= j < |CANDIDATES|
    ensures CANDIDATES[j] % CANDIDATES[i] == 0
  {
  }

  method BucketSeconds(delta: int) returns (chosen: int)
    ensures Coarsest(chosen, if delta < 1 then 1 else delta, 1)
  {
    var span := if delta < 1 then 1 else delta;
    chosen := Pick(span, DAY, 1);
  }

  /** The early-break loop both pickers share. */
  method Pick(span: int, cap: int, unit: int) returns (chosen: int)
    requires (unit == 1 || unit == SECOND) && cap == DAY * unit
    ensures Coarsest(chosen, span, unit)
  {
    hide CANDIDATES;
    FirstCandidate();
    chosen := CANDIDATES[0] * unit;
    var i := 0;
    while i < |CANDIDATES|
      invariant 0 <= i <= |CANDIDATES|
      invariant if i == 0 then chosen == CANDIDATES[0] * unit
                else chosen == CANDIDATES[i - 1] * unit && 100 * chosen <= span
    {
      var b := CANDIDATES[i] * unit;
      CandidatesAscend(i, i);
      if cap < b {
        break;
      }
      if span < 100 * b {
        break;
      }
      chosen := b;
      i := i + 1;
    }
    forall k | 0 <= k < |CANDIDATES| && 100 * (CANDIDATES[k] * unit) <= span
      ensures CANDIDATES[k] * unit <= chosen
    {
      if i <= k {
        CandidatesAscend(i, k);
        assert false;
      } else {
        CandidatesAscend(k, i - 1);
      }
    }
  }

  lemma FirstCandidate()
    ensures |CANDIDATES| == 8
  {
  }

  function Max(a: int, b: int): int {
    if a < b then b else a
  }

  /** The coarsest candidate for the span, but never finer than the server's bucket;
      `bucketS` is None when the data carries no usable number. */
  ghost predicate ClientBin(binMs: int, span: int, bucketS: Option<int>) {
    exists client: int :: Coarsest(client, span, SECOND)
      && binMs == if bucketS.Some? && 0 < bucketS.value then Max(client, bucketS.value * SECOND) else client
  }

  method DashboardBinMs(span: int, bucketS: Option<int>) returns (binMs: int)
    ensures ClientBin(binMs, span, bucketS)
  {
    binMs := Pick(span, DAY * SECOND, SECOND);
    ghost var client := binMs;
    if bucketS.Some? && 0 < bucketS.value * SECOND {
      binMs := Max(binMs, bucketS.value * SECOND);
    }
    assert Coarsest(client, span, SECOND);
  }

  /** Half-widths are whole milliseconds because the bucket is whole seconds. */
  function BackendAggregateRange(first: int, last: int, bucketS: Option<int>): (int, int) {
    if bucketS.Some? && 0 < bucketS.value
    then (first - bucketS.value * SECOND / 2, last + bucketS.value * SECOND / 2)
    else (first, last + 1)
  }

  /** With or without a server bucket the range holds every instant from first to last. */
  lemma RangeHolds(first: int, last: int, bucketS: Option<int>, t: int)
    requires first <= t <= last
    ensures var range := BackendAggregateRange(first, last, bucketS); range.0 <= t < range.1
    ensures bucketS.None? || bucketS.value <= 0 ==> BackendAggregateRange(first, last, bucketS).1 == last + 1
  {
  }

  /** The instant a server aggregate is stamped with: its bucket's midpoint, in milliseconds. */
  function Midpoint(q: int, bucketS: int): int {
    (q * bucketS + bucketS / 2) * SECOND
  }

  /** The display bin is a whole number of server buckets wide. */
  lemma DisplayIsMultipleOfServer(server: int, binMs: int, clientSpan: int, serverSpan: int)
    returns (n: nat)
    requires ClientBin(binMs, clientSpan, Some(server)) && Coarsest(server, serverSpan, 1)
    ensures 0 < n && binMs == n * (server * SECOND)
  {
    CandidatesAreEven(server, serverSpan);
    hide CANDIDATES;
    var client: int :| Coarsest(client, clientSpan, SECOND) && binMs == Max(client, server * SECOND);
    var i :| 0 <= i < |CANDIDATES| && client == CANDIDATES[i] * SECOND;
    var j :| 0 <= j < |CANDIDATES| && server == CANDIDATES[j] * 1;
    CandidatesAscend(j, j);
    if client <= server * SECOND {
      n := 1;
    } else {
      if i <= j {
        CandidatesAscend(i, j);
        assert false;
      }
      n := WholeMultiple(j, i);
    }
  }

  lemma WholeMultiple(j: nat, i: nat) returns (n: nat)
    requires j <= i < |CANDIDATES|
    ensures 0 < n && CANDIDATES[i] * SECOND == n * (CANDIDATES[j] * SECOND)
  {
    CandidatesAscend(j, i);
    CandidatesChain(j, i);
    hide CANDIDATES;
    n := CANDIDATES[i] / CANDIDATES[j];
    assert CANDIDATES[i] == n * CANDIDATES[j];
    Regroup(n, CANDIDATES[j], SECOND);
  }

  /** The range the client derives from server buckets q0..q1 is exactly their union. */
  lemma RangeIsTheBuckets(q0: int, q1: int, server: int)
    requires 0 < server
    requires server % 2 == 0
    ensures BackendAggregateRange(Midpoint(q0, server), Midpoint(q1, server), Some(server))
         == (q0 * server * SECOND, (q1 + 1) * server * SECOND)
  {
    var h := server / 2;
    assert server == 2 * h;
    assert server * SECOND / 2 == h * SECOND;
    assert (q1 + 1) * server == q1 * server + server;
  }

  lemma CandidatesAreEven(server: int, span: int)
    requires Coarsest(server, span, 1)
    ensures 0 < server && server % 2 == 0
  {
    var j :| 0 <= j < |CANDIDATES| && server == CANDIDATES[j] * 1;
    assert CANDIDATES[j] in {60, 300, 900, 1800, 3600, 21600, 43200, 86400};
  }

  /** Offsets of whole buckets fall between consecutive multiples of the bin. */
  lemma BucketBetweenMultiples(d: nat, n: nat, w: nat) returns (k: nat)
    requires 0 < n && 0 < w
    ensures k * (n * w) <= d * w && (d + 1) * w <= (k + 1) * (n * w)
  {
    k := d / n;
    assert k * n <= d && d + 1 <= (k + 1) * n;
    Scale(k * n, d, w);
    Scale(d + 1, (k + 1) * n, w);
    Regroup(k, n, w);
    Regroup(k + 1, n, w);
  }

  lemma Scale(a: int, b: int, w: nat)
    requires a <= b
    ensures a * w <= b * w
  {
  }

  lemma Regroup(k: int, n: int, w: int)
    ensures k * n * w == k * (n * w)
  {
  }

  predicate Holds(bins: seq<TimeSeries.Interval>, i: nat, t: int)
    requires i < |bins|
  {
    TimeSeries.InBin(bins, i, t as real)
  }

  /** Bin k of the tiling, when the range reaches past its start. */
  lemma BinAt(bins: seq<TimeSeries.Interval>, start: int, end: int, binMs: int, k: nat)
    requires 0 < binMs && TimeSeries.Tiles(bins, TimeSeries.Range(start as real, end as real), binMs as real)
    requires start + k * binMs < end
    ensures k < |bins|
    ensures bins[k].start == (start + k * binMs) as real
    ensures bins[k].end == (if start + (k + 1) * binMs <= end then start + (k + 1) * binMs else end) as real
  {
    var n := |bins| - 1;
    StartOf(bins, start, end, binMs, n);
    Times(n, binMs);
    Times(k, binMs);
    if n < k {
      Scale(n + 1, k, binMs);
    }
    StartOf(bins, start, end, binMs, k);
  }

  lemma Times(n: nat, b: int)
    ensures (n + 1) * b == n * b + b
  {
  }

  /** Where bin i starts and ends, in whole milliseconds. */
  lemma StartOf(bins: seq<TimeSeries.Interval>, start: int, end: int, binMs: int, i: nat)
    requires 0 < binMs && TimeSeries.Tiles(bins, TimeSeries.Range(start as real, end as real), binMs as real)
    requires i < |bins|
    ensures bins[i].start == (start + i * binMs) as real
    ensures bins[i].end == (if start + i * binMs + binMs <= end then start + i * binMs + binMs else end) as real
    ensures i == |bins| - 1 ==> end <= start + i * binMs + binMs
  {
    RealTimes(i, binMs);
    assert bins[i].start == start as real + i as real * binMs as real;
  }

  lemma RealTimes(i: nat, b: int)
    ensures i as real * b as real == (i * b) as real
  {
  }

  /** No server aggregate is split: with the pickers' widths and the widened range,
      every server bucket from the first to the last shown lies wholly inside one
      display bin, the only one holding the midpoint it is stamped with. */
  lemma NoAggregateIsSplit(bins: seq<TimeSeries.Interval>, q0: int, q1: int, q: int,
                           server: int, serverSpan: int, range: (int, int), binMs: int) returns (k: nat)
    requires Coarsest(server, serverSpan, 1) && q0 <= q <= q1
    requires range == BackendAggregateRange(Midpoint(q0, server), Midpoint(q1, server), Some(server))
    requires ClientBin(binMs, range.1 - range.0, Some(server))
    requires TimeSeries.Tiles(bins, TimeSeries.Range(range.0 as real, range.1 as real), binMs as real)
    ensures k < |bins|
    ensures bins[k].start <= (q * server * SECOND) as real
    ensures ((q + 1) * server * SECOND) as real <= bins[k].end
    ensures forall i | 0 <= i < |bins| :: Holds(bins, i, Midpoint(q, server)) <==> i == k
  {
    hide CANDIDATES, Coarsest, ClientBin, BackendAggregateRange;
    CandidatesAreEven(server, serverSpan);
    RangeIsTheBuckets(q0, q1, server);
    var n := DisplayIsMultipleOfServer(server, binMs, range.1 - range.0, serverSpan);
    var w := server * SECOND;
    k := BucketBetweenMultiples(q - q0, n, w);
    Placed(q0, q1, q, server);
    BinAt(bins, range.0, range.1, binMs, k);
    OnlyHolder(bins, range, binMs, k, Midpoint(q, server));
  }

  /** Where bucket q lies relative to the first bucket and the range's end. */
  lemma Placed(q0: int, q1: int, q: int, server: int)
    requires 0 < server && server % 2 == 0 && q0 <= q <= q1
    ensures var w := server * SECOND;
            && q * server * SECOND == q0 * server * SECOND + (q - q0) * w
            && (q + 1) * server * SECOND == q0 * server * SECOND + (q - q0 + 1) * w
            && (q + 1) * server * SECOND <= (q1 + 1) * server * SECOND
            && q * server * SECOND < Midpoint(q, server) < (q + 1) * server * SECOND
  {
    Scale(q + 1, q1 + 1, server);
    assert (q - q0) * (server * SECOND) == q * server * SECOND - q0 * server * SECOND;
    assert (q - q0 + 1) * (server * SECOND) == (q - q0) * (server * SECOND) + server * SECOND;
    assert (q + 1) * server == q * server + server;
  }

  lemma OnlyHolder(bins: seq<TimeSeries.Interval>, range: (int, int), binMs: int, k: nat, t: int)
    requires 0 < binMs && range.0 < range.1
    requires TimeSeries.Tiles(bins, TimeSeries.Range(range.0 as real, range.1 as real), binMs as real)
    requires k < |bins| && bins[k].start <= t as real < bins[k].end
    ensures forall i | 0 <= i < |bins| :: Holds(bins, i, t) <==> i == k
  {
    var i := TimeSeries.ExactlyOneBin(bins, TimeSeries.Range(range.0 as real, range.1 as real), binMs as real,
                                   t as real, k);
    assert Holds(bins, k, t);
  }
}
