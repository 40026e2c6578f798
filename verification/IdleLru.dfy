/** The transcript cache (backend/cache.py, `_IdleLRU`): least recently used
    first, capped in bytes, idle entries dropped by the next put. */
module IdleLru {
  import opened Wrappers

  type Bytes = seq<int>

  datatype Item = Item(key: string, data: Bytes, ts: int)

  // ------------------------------------------------------------------
  // Specification
  // ------------------------------------------------------------------

  function Total(items: seq<Item>): nat {
    if items == [] then 0 else |items[0].data| + Total(items[1..])
  }

  /** Keys are distinct and entries are ordered by stamp, oldest first. */
  ghost predicate Chain(items: seq<Item>) {
    items != [] ==>
      && (forall x | x in items[1..] :: items[0].key != x.key && items[0].ts <= x.ts)
      && Chain(items[1..])
  }

  function Find(items: seq<Item>, key: string): Option<nat> {
    if items == [] then None
    else if items[0].key == key then Some(0)
    else match Find(items[1..], key) case None => None case Some(i) => Some(i + 1)
  }

  function Without(items: seq<Item>, key: string): seq<Item> {
    if items == [] then []
    else if items[0].key == key then Without(items[1..], key)
    else [items[0]] + Without(items[1..], key)
  }

  function NotIdle(items: seq<Item>, threshold: int): seq<Item> {
    if items == [] then []
    else if items[0].ts < threshold then NotIdle(items[1..], threshold)
    else [items[0]] + NotIdle(items[1..], threshold)
  }

  /** The longest suffix, most recent last, whose bytes and `extra` more stay within the cap. */
  function FittingSuffix(items: seq<Item>, extra: nat, cap: nat): seq<Item> {
    if items == [] || Total(items) + extra <= cap then items
    else FittingSuffix(items[1..], extra, cap)
  }

  function AfterGet(items: seq<Item>, key: string, now: int): seq<Item> {
    match Find(items, key)
    case None => items
    case Some(i) => if i < |items| then Without(items, key) + [Item(key, items[i].data, now)] else items
  }

  function AfterPut(items: seq<Item>, key: string, data: Bytes, threshold: int, cap: nat, now: int): seq<Item> {
    Kept(items, key, |data|, threshold, cap) + [Item(key, data, now)]
  }

  ghost predicate Ordered(items: seq<Item>, cap: nat, clock: int) {
    && Chain(items)
    && (forall x | x in items :: x.ts <= clock)
    && (Total(items) <= cap || |items| == 1)
  }

  // ------------------------------------------------------------------
  // Facts about the specification
  // ------------------------------------------------------------------

  lemma {:induction false} TotalConcat(a: seq<Item>, b: seq<Item>)
    ensures Total(a + b) == Total(a) + Total(b)
  {
    if a == [] {
      assert a + b == b;
    } else {
      assert (a + b)[1..] == a[1..] + b;
      TotalConcat(a[1..], b);
    }
  }

  lemma {:induction false} FindAt(items: seq<Item>, key: string)
    ensures Find(items, key).Some? ==> Find(items, key).value < |items| && items[Find(items, key).value].key == key
    ensures Find(items, key).None? ==> forall i | 0 <= i < |items| :: items[i].key != key
  {
    if items != [] && items[0].key != key {
      FindAt(items[1..], key);
    }
  }

  /** With distinct keys, removing a key removes exactly its one entry. */
  lemma {:induction false} WithoutAt(items: seq<Item>, i: nat)
    requires Chain(items) && i < |items|
    ensures Without(items, items[i].key) == items[..i] + items[i + 1..]
  {
    FirstDiffers(items, i);
    hide *;
    if i == 0 {
      WithoutAbsent(items[1..], items[0].key);
      assert items[..0] + items[1..] == items[1..];
    } else {
      WithoutAt(items[1..], i - 1);
      assert items[..i] == [items[0]] + items[1..][..i - 1] && items[1..][i..] == items[i + 1..];
    }
  }

  lemma FirstDiffers(items: seq<Item>, i: nat)
    requires Chain(items) && i < |items|
    ensures Chain(items[1..])
    ensures i == 0 ==> Without(items, items[i].key) == Without(items[1..], items[i].key)
                       && forall j | 0 <= j < |items[1..]| :: items[1..][j].key != items[0].key
    ensures i > 0 ==> items[1..][i - 1] == items[i]
                      && Without(items, items[i].key) == [items[0]] + Without(items[1..], items[i].key)
  {
    if i > 0 {
      assert items[i] == items[1..][i - 1];
    }
  }

  lemma {:induction false} WithoutAbsent(items: seq<Item>, key: string)
    requires forall i | 0 <= i < |items| :: items[i].key != key
    ensures Without(items, key) == items
  {
    if items != [] {
      WithoutAbsent(items[1..], key);
    }
  }

  lemma {:induction false} FittingSuffixIs(items: seq<Item>, extra: nat, cap: nat)
    ensures |FittingSuffix(items, extra, cap)| <= |items|
    ensures FittingSuffix(items, extra, cap) == items[|items| - |FittingSuffix(items, extra, cap)|..]
  {
    if items != [] && Total(items) + extra > cap {
      FittingSuffixIs(items[1..], extra, cap);
    }
  }

  /** FittingSuffix keeps a suffix; it fits unless nothing is left; and every longer suffix does not fit. */
  lemma {:induction false} FittingSuffixIsLongest(items: seq<Item>, extra: nat, cap: nat, n: nat)
    requires n <= |items|
    ensures FittingSuffix(items, extra, cap) == [] || Total(FittingSuffix(items, extra, cap)) + extra <= cap
    ensures n < |items| - |FittingSuffix(items, extra, cap)| ==> Total(items[n..]) + extra > cap
  {
    if items != [] && Total(items) + extra > cap {
      FittingSuffixIs(items[1..], extra, cap);
      if n > 0 {
        FittingSuffixIsLongest(items[1..], extra, cap, n - 1);
        assert items[1..][n - 1..] == items[n..];
      } else {
        FittingSuffixIsLongest(items[1..], extra, cap, 0);
        assert items[0..] == items;
      }
    }
  }

  lemma {:induction false} WithoutIs(items: seq<Item>, key: string)
    ensures forall x :: x in Without(items, key) <==> x in items && x.key != key
    ensures Chain(items) ==> Chain(Without(items, key))
    ensures |Without(items, key)| <= |items| && Total(Without(items, key)) <= Total(items)
  {
    if items != [] {
      WithoutIs(items[1..], key);
      TotalConcat([items[0]], Without(items[1..], key));
      assert ([items[0]] + Without(items[1..], key))[1..] == Without(items[1..], key);
    }
  }

  lemma {:induction false} NotIdleIs(items: seq<Item>, threshold: int)
    ensures forall x :: x in NotIdle(items, threshold) <==> x in items && threshold <= x.ts
    ensures Chain(items) ==> Chain(NotIdle(items, threshold))
    ensures |NotIdle(items, threshold)| <= |items| && Total(NotIdle(items, threshold)) <= Total(items)
  {
    if items != [] {
      NotIdleIs(items[1..], threshold);
      TotalConcat([items[0]], NotIdle(items[1..], threshold));
      assert ([items[0]] + NotIdle(items[1..], threshold))[1..] == NotIdle(items[1..], threshold);
    }
  }

  lemma {:induction false} ChainSuffix(items: seq<Item>, n: nat)
    requires Chain(items) && n <= |items|
    ensures Chain(items[n..])
  {
    if n > 0 {
      ChainSuffix(items[1..], n - 1);
      assert items[1..][n - 1..] == items[n..];
    }
  }

  lemma {:induction false} ChainAppend(items: seq<Item>, last: Item)
    requires Chain(items) && forall x | x in items :: x.key != last.key && x.ts <= last.ts
    ensures Chain(items + [last])
  {
    if items != [] {
      ChainAppend(items[1..], last);
      assert (items + [last])[1..] == items[1..] + [last];
    }
  }

  lemma TotalOf(x: Item)
    ensures Total([x]) == |x.data|
  {
  }

  /** What survives beside a newly put entry. */
  function Kept(items: seq<Item>, key: string, size: nat, threshold: int, cap: nat): seq<Item> {
    FittingSuffix(Without(NotIdle(items, threshold), key), size, cap)
  }

  lemma KeptIs(items: seq<Item>, key: string, size: nat, threshold: int, cap: nat)
    requires Chain(items)
    ensures Chain(Kept(items, key, size, threshold, cap))
    ensures forall x | x in Kept(items, key, size, threshold, cap) :: x in items && x.key != key && threshold <= x.ts
    ensures Kept(items, key, size, threshold, cap) == []
            || Total(Kept(items, key, size, threshold, cap)) + size <= cap
  {
    var live := NotIdle(items, threshold);
    var others := Without(live, key);
    NotIdleIs(items, threshold);
    WithoutIs(live, key);
    FittingSuffixIs(others, size, cap);
    FittingSuffixIsLongest(others, size, cap, 0);
    ChainSuffix(others, |others| - |FittingSuffix(others, size, cap)|);
  }

  /** A put with a non-decreasing clock keeps every invariant, whatever was stored. */
  lemma PutKeepsOrder(items: seq<Item>, key: string, data: Bytes, threshold: int, cap: nat, clock: int, now: int)
    requires Ordered(items, cap, clock) && clock <= now
    ensures Ordered(AfterPut(items, key, data, threshold, cap, now), cap, now)
  {
    hide Total, Kept;
    var kept := Kept(items, key, |data|, threshold, cap);
    KeptIs(items, key, |data|, threshold, cap);
    ChainAppend(kept, Item(key, data, now));
    TotalConcat(kept, [Item(key, data, now)]);
    TotalOf(Item(key, data, now));
  }

  lemma GetKeepsOrder(items: seq<Item>, key: string, cap: nat, clock: int, now: int)
    requires Ordered(items, cap, clock) && clock <= now
    ensures Ordered(AfterGet(items, key, now), cap, now)
    ensures Total(AfterGet(items, key, now)) == Total(items)
  {
    FindAt(items, key);
    if Find(items, key).Some? {
      var i := Find(items, key).value;
      var moved := Item(key, items[i].data, now);
      WithoutAt(items, i);
      WithoutIs(items, key);
      TotalAround(items, i);
      TotalConcat(Without(items, key), [moved]);
      TotalOf(moved);
      hide Total, Without;
      ChainAppend(Without(items, key), moved);
    }
  }

  lemma TotalAround(items: seq<Item>, i: nat)
    requires i < |items|
    ensures Total(items) == Total(items[..i] + items[i + 1..]) + |items[i].data|
  {
    TotalConcat(items[..i], items[i + 1..]);
    TotalConcat(items[..i], items[i..]);
    assert items[..i] + items[i..] == items;
    assert items[i..][1..] == items[i + 1..];
  }

  /** What one turn of the eviction loop does, or why it stops. */
  lemma FitStep(items: seq<Item>, extra: nat, cap: nat)
    ensures items != [] ==> Total(items) == |items[0].data| + Total(items[1..])
    ensures FittingSuffix(items, extra, cap)
         == if items == [] || Total(items) + extra <= cap then items else FittingSuffix(items[1..], extra, cap)
  {
  }

  // ------------------------------------------------------------------
  // The idle sweep's loop
  // ------------------------------------------------------------------

  lemma NothingKept(items: seq<Item>, threshold: int)
    ensures [] + NotIdle(items[0..], threshold) == NotIdle(items, threshold)
    ensures Total(items) == Total([]) + Total(items[0..])
  {
    assert items[0..] == items;
  }

  lemma AllKept(items: seq<Item>, threshold: int, kept: seq<Item>)
    requires kept + NotIdle(items[|items|..], threshold) == NotIdle(items, threshold)
    ensures kept == NotIdle(items, threshold) && Total(items[|items|..]) == 0
  {
    assert items[|items|..] == [] && kept + [] == kept;
  }

  /** What one turn does to the part already kept and the part still to visit. */
  lemma IdleStep(items: seq<Item>, threshold: int, i: nat, kept: seq<Item>)
    requires i < |items|
    ensures Total(items[i..]) == |items[i].data| + Total(items[i + 1..])
    ensures Total(kept + [items[i]]) == Total(kept) + |items[i].data|
    ensures kept + NotIdle(items[i..], threshold)
         == (if items[i].ts < threshold then kept else kept + [items[i]]) + NotIdle(items[i + 1..], threshold)
  {
    assert items[i..][1..] == items[i + 1..];
    TotalConcat(kept, [items[i]]);
    TotalOf(items[i]);
    var more := NotIdle(items[i + 1..], threshold);
    assert kept + ([items[i]] + more) == kept + [items[i]] + more;
  }

  // ------------------------------------------------------------------
  // Runs of gets and puts
  // ------------------------------------------------------------------

  /** `threshold` is the put's first clock reading less the idle limit. */
  datatype Op = Get(key: string, now: int) | Put(key: string, data: Bytes, threshold: int, now: int)

  function Run(ops: seq<Op>, cap: nat): seq<Item> {
    if ops == [] then []
    else
      var before := Run(ops[..|ops| - 1], cap);
      match ops[|ops| - 1]
      case Get(k, now) => AfterGet(before, k, now)
      case Put(k, d, th, now) => AfterPut(before, k, d, th, cap, now)
  }

  function LastPut(ops: seq<Op>, key: string): Option<Bytes> {
    if ops == [] then None
    else
      var op := ops[|ops| - 1];
      if op.Put? && op.key == key then Some(op.data) else LastPut(ops[..|ops| - 1], key)
  }

  ghost predicate ClockAdvances(ops: seq<Op>) {
    forall i, j | 0 <= i < j < |ops| :: ops[i].now <= ops[j].now
  }

  /** Over every sequence of gets and puts with a non-decreasing clock: keys are
      distinct, entries are ordered by their stamps, each the time of the latest operation
      on its key, and the bytes are within the cap unless a single oversized entry remains. */
  lemma RunKeepsOrder(ops: seq<Op>, cap: nat)
    requires ClockAdvances(ops)
    ensures Ordered(Run(ops, cap), cap, if ops == [] then 0 else ops[|ops| - 1].now)
    ensures forall item | item in Run(ops, cap) :: LastUse(ops, item.key) == Some(item.ts)
  {
    RunIsOrdered(ops, cap);
    forall item | item in Run(ops, cap)
      ensures LastUse(ops, item.key) == Some(item.ts)
    {
      StampIsLastUse(ops, cap, item);
    }
  }

  lemma {:induction false} RunIsOrdered(ops: seq<Op>, cap: nat)
    requires ClockAdvances(ops)
    ensures Ordered(Run(ops, cap), cap, if ops == [] then 0 else ops[|ops| - 1].now)
  {
    if ops != [] {
      var prefix := ops[..|ops| - 1];
      RunIsOrdered(prefix, cap);
      var clock := if prefix == [] then ops[0].now else prefix[|prefix| - 1].now;
      assert Ordered(Run(prefix, cap), cap, clock);
      match ops[|ops| - 1]
      case Get(k, now) => GetKeepsOrder(Run(prefix, cap), k, cap, clock, now);
      case Put(k, d, th, now) => PutKeepsOrder(Run(prefix, cap), k, d, th, cap, clock, now);
    }
  }

  /** Every stored entry holds the bytes last put under its key, so a hit returns them. */
  lemma {:induction false} HitReturnsLastPut(ops: seq<Op>, cap: nat, item: Item)
    requires ClockAdvances(ops) && item in Run(ops, cap)
    ensures LastPut(ops, item.key) == Some(item.data)
  {
    var prefix := ops[..|ops| - 1];
    var before := Run(prefix, cap);
    RunIsOrdered(prefix, cap);
    match ops[|ops| - 1]
    case Get(k, now) =>
      FindAt(before, k);
      WithoutIs(before, k);
      if item in before {
        HitReturnsLastPut(prefix, cap, item);
      } else {
        HitReturnsLastPut(prefix, cap, before[Find(before, k).value]);
      }
    case Put(k, d, th, now) =>
      var live := NotIdle(before, th);
      NotIdleIs(before, th);
      WithoutIs(live, k);
      FittingSuffixIs(Without(live, k), |d|, cap);
      if item.key != k {
        assert item in Without(live, k);
        HitReturnsLastPut(prefix, cap, item);
      }
  }

  /** The time of the latest operation on the key. */
  function LastUse(ops: seq<Op>, key: string): Option<int> {
    if ops == [] then None
    else
      var op := ops[|ops| - 1];
      if op.key == key then Some(op.now) else LastUse(ops[..|ops| - 1], key)
  }

  /** A stored entry's stamp is the time of the latest hit or put of its key: every
      operation on a stored key since its put was a hit. */
  lemma {:induction false} StampIsLastUse(ops: seq<Op>, cap: nat, item: Item)
    requires item in Run(ops, cap)
    ensures LastUse(ops, item.key) == Some(item.ts)
  {
    var prefix := ops[..|ops| - 1];
    var before := Run(prefix, cap);
    match ops[|ops| - 1]
    case Get(k, now) =>
      FindAt(before, k);
      WithoutIs(before, k);
      if item.key != k {
        StampIsLastUse(prefix, cap, item);
      }
    case Put(k, d, th, now) =>
      NotIdleIs(before, th);
      WithoutIs(NotIdle(before, th), k);
      FittingSuffixIs(Without(NotIdle(before, th), k), |d|, cap);
      if item.key != k {
        assert item in Without(NotIdle(before, th), k);
        StampIsLastUse(prefix, cap, item);
      }
  }

  /** A hit moves its entry, bytes unchanged and stamped now, to the recent end and leaves
      the others in their order; a miss changes nothing. */
  lemma HitMovesToEnd(items: seq<Item>, i: nat, now: int)
    requires Chain(items) && i < |items|
    ensures AfterGet(items, items[i].key, now)
         == items[..i] + items[i + 1..] + [Item(items[i].key, items[i].data, now)]
  {
    FindAt(items, items[i].key);
    WithoutAt(items, i);
    KeysDiffer(items, i, Find(items, items[i].key).value);
  }

  lemma {:induction false} KeysDiffer(items: seq<Item>, i: nat, j: nat)
    requires Chain(items) && i < |items| && j < |items| && items[i].key == items[j].key
    ensures i == j
  {
    assert forall n | 0 < n < |items| :: items[n] in items[1..];
    if i > 0 && j > 0 {
      KeysDiffer(items[1..], i - 1, j - 1);
    }
  }

  /** Which entries a put leaves: of the other entries not idle, n among them survives
      exactly when it and everything used after it fit beside the new bytes. */
  lemma SurvivesExactly(others: seq<Item>, extra: nat, cap: nat, n: nat)
    requires n < |others|
    ensures |others| - |FittingSuffix(others, extra, cap)| <= n <==> Total(others[n..]) + extra <= cap
  {
    var kept := FittingSuffix(others, extra, cap);
    FittingSuffixIs(others, extra, cap);
    FittingSuffixIsLongest(others, extra, cap, n);
    var start := |others| - |kept|;
    if start <= n {
      assert others[n..] == kept[n - start..] && kept == kept[..n - start] + kept[n - start..];
      TotalConcat(kept[..n - start], kept[n - start..]);
    }
  }

  // ------------------------------------------------------------------
  // The cache object
  // ------------------------------------------------------------------

  class IdleLruCache {
    const maxBytes: nat
    const idleSeconds: nat
    var items: seq<Item>
    var size: int

    /** The size counter equals the sum of the stored lengths. */
    ghost predicate Valid(clock: int)
      reads this
    {
      size == Total(items) && Ordered(items, maxBytes, clock)
    }

    constructor (maxBytes: nat, idleSeconds: nat, clock: int)
      ensures Valid(clock) && items == [] && this.maxBytes == maxBytes && this.idleSeconds == idleSeconds
    {
      this.maxBytes := maxBytes;
      this.idleSeconds := idleSeconds;
      items := [];
      size := 0;
    }

    method Get(key: string, ghost clock: int, now: int) returns (r: Option<Bytes>)
      requires Valid(clock) && clock <= now
      modifies this
      ensures Valid(now) && items == AfterGet(old(items), key, now)
      ensures r.None? <==> forall x | x in old(items) :: x.key != key
      ensures r.None? ==> items == old(items)
      ensures r.Some? ==>
        exists i | 0 <= i < |old(items)| ::
          && old(items)[i].key == key && old(items)[i].data == r.value
          && items == old(items)[..i] + old(items)[i + 1..] + [Item(key, r.value, now)]
    {
      GetKeepsOrder(items, key, maxBytes, clock, now);
      FindAt(items, key);
      var at := Find(items, key);
      if at.None? {
        return None;
      }
      var found := items[at.value];
      HitMovesToEnd(items, at.value, now);
      items := items[..at.value] + items[at.value + 1..] + [Item(key, found.data, now)];
      return Some(found.data);
    }

    method EvictIdle(ghost clock: int, now: int)
      requires Valid(clock)
      modifies this
      ensures Valid(clock) && items == NotIdle(old(items), now - idleSeconds)
    {
      var threshold := now - idleSeconds;
      NotIdleIs(items, threshold);
      hide NotIdle, Total, Chain;
      var kept: seq<Item> := [];
      var i := 0;
      NothingKept(items, threshold);
      while i < |items|
        invariant 0 <= i <= |items| && items == old(items)
        invariant kept + NotIdle(items[i..], threshold) == NotIdle(items, threshold)
        invariant size == Total(kept) + Total(items[i..])
      {
        IdleStep(items, threshold, i, kept);
        if items[i].ts < threshold {
          size := size - |items[i].data|;
        } else {
          kept := kept + [items[i]];
        }
        i := i + 1;
      }
      AllKept(items, threshold, kept);
      items := kept;
    }

    /** Keeps the longest suffix of the other live entries that fits beside the new one. */
    method Put(key: string, data: Bytes, ghost clock: int, evictNow: int, putNow: int)
      requires Valid(clock) && clock <= evictNow <= putNow
      modifies this
      ensures Valid(putNow)
      ensures items == AfterPut(old(items), key, data, evictNow - idleSeconds, maxBytes, putNow)
    {
      hide NotIdle, Find, Chain, Total, FittingSuffix, Without;
      PutKeepsOrder(items, key, data, evictNow - idleSeconds, maxBytes, clock, putNow);
      EvictIdle(clock, evictNow);
      ghost var live := items;
      FindAt(items, key);
      var at := Find(items, key);
      if at.Some? {
        WithoutAt(items, at.value);
        TotalAround(items, at.value);
        size := size - |items[at.value].data|;
        items := items[..at.value] + items[at.value + 1..];
      } else {
        WithoutAbsent(items, key);
      }
      ghost var others := items;
      while size + |data| > maxBytes && items != []
        invariant size == Total(items)
        invariant FittingSuffix(items, |data|, maxBytes) == FittingSuffix(others, |data|, maxBytes)
        decreases |items|
      {
        FitStep(items, |data|, maxBytes);
        size := size - |items[0].data|;
        items := items[1..];
      }
      FitStep(items, |data|, maxBytes);
      TotalConcat(items, [Item(key, data, putNow)]);
      TotalOf(Item(key, data, putNow));
      items := items + [Item(key, data, putNow)];
      size := size + |data|;
    }
  }
}
