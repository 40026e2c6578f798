/** The response cache store (backend/cache.py, `_TTLCache`): a flat TTL plus a
    generation counter that makes entries stale without dropping them, and what that
    mechanism answers in terms of the calls made so far. */
module TtlCache {
  import opened Wrappers

  type Key = string

  datatype Entry<V> = Entry(value: V, ts: int, gen: nat)

  datatype Hit<V> = Hit(value: V, stale: bool)

  /** The fields of the store as one value. */
  datatype Contents<V> = Contents(ttl: nat, items: map<Key, Entry<V>>, generation: nat)

  function Lookup<V>(c: Contents<V>, key: Key, now: int): Option<Hit<V>> {
    if key !in c.items || now - c.items[key].ts > c.ttl then None
    else Some(Hit(c.items[key].value, c.items[key].gen != c.generation))
  }

  /** An expired entry is dropped by the lookup that finds it. */
  function AfterLookup<V>(c: Contents<V>, key: Key, now: int): Contents<V> {
    if key in c.items && now - c.items[key].ts > c.ttl then c.(items := c.items - {key}) else c
  }

  function Stored<V>(c: Contents<V>, key: Key, value: V, now: int): Contents<V> {
    c.(items := c.items[key := Entry(value, now, c.generation)])
  }

  function Invalidated<V>(c: Contents<V>): Contents<V> {
    c.(generation := c.generation + 1)
  }

  function Cleared<V>(c: Contents<V>): Contents<V> {
    c.(items := map[], generation := c.generation + 1)
  }

  // ------------------------------------------------------------------
  // What the calls made so far determine
  // ------------------------------------------------------------------

  datatype Op<V> = Get(key: Key, now: int) | Put(key: Key, value: V, now: int) | Invalidate | Clear

  /** A value once put, and whether an invalidation followed. */
  datatype Memory<V> = Memory(value: V, ts: int, stale: bool)

  /** The latest put of the key since the last clear, unless a lookup found it expired. */
  function Recall<V>(log: seq<Op<V>>, ttl: nat, key: Key): Option<Memory<V>> {
    if log == [] then None
    else
      var before := Recall(log[..|log| - 1], ttl, key);
      match log[|log| - 1]
      case Put(k, v, now) => if k == key then Some(Memory(v, now, false)) else before
      case Invalidate => if before.Some? then Some(before.value.(stale := true)) else None
      case Clear => None
      case Get(k, now) => if k == key && before.Some? && now - before.value.ts > ttl then None else before
  }

  function Answer<V>(log: seq<Op<V>>, ttl: nat, key: Key, now: int): Option<Hit<V>> {
    var m := Recall(log, ttl, key);
    if m.None? || now - m.value.ts > ttl then None else Some(Hit(m.value.value, m.value.stale))
  }

  function Perform<V>(c: Contents<V>, op: Op<V>): Contents<V> {
    match op
    case Get(k, now) => AfterLookup(c, k, now)
    case Put(k, v, now) => Stored(c, k, v, now)
    case Invalidate => Invalidated(c)
    case Clear => Cleared(c)
  }

  predicate Agrees<V(==)>(c: Contents<V>, m: Option<Memory<V>>, key: Key) {
    if key in c.items
    then var e := c.items[key]; m == Some(Memory(e.value, e.ts, e.gen != c.generation)) && e.gen <= c.generation
    else m.None?
  }

  /** Every key's entry is what the log recalls, stale exactly when its generation is old. */
  ghost predicate Follows<V>(c: Contents<V>, log: seq<Op<V>>) {
    forall k: Key :: Agrees(c, Recall(log, c.ttl, k), k)
  }

  lemma RecallAppend<V>(log: seq<Op<V>>, op: Op<V>, ttl: nat, key: Key)
    ensures Recall(log + [op], ttl, key) ==
      var before := Recall(log, ttl, key);
      match op
      case Put(k, v, now) => if k == key then Some(Memory(v, now, false)) else before
      case Invalidate => if before.Some? then Some(before.value.(stale := true)) else None
      case Clear => None
      case Get(k, now) => if k == key && before.Some? && now - before.value.ts > ttl then None else before
  {
    assert (log + [op])[..|log|] == log;
  }

  /** Generations implement the log: whatever is called, the store keeps following it. */
  lemma PerformFollows<V>(c: Contents<V>, log: seq<Op<V>>, op: Op<V>)
    requires Follows(c, log)
    ensures Follows(Perform(c, op), log + [op])
  {
    forall k: Key
      ensures Agrees(Perform(c, op), Recall(log + [op], c.ttl, k), k)
    {
      RecallAppend(log, op, c.ttl, k);
      assert Agrees(c, Recall(log, c.ttl, k), k);
    }
  }

  /** So a lookup answers from the calls alone: the value last put since the last clear,
      within its TTL, flagged stale exactly when an invalidation followed that put. */
  lemma LookupAnswers<V>(c: Contents<V>, log: seq<Op<V>>, key: Key, now: int)
    requires Follows(c, log)
    ensures Lookup(c, key, now) == Answer(log, c.ttl, key, now)
  {
    assert Agrees(c, Recall(log, c.ttl, key), key);
  }

  function Staled<V>(r: Option<Hit<V>>): Option<Hit<V>> {
    if r.Some? then Some(Hit(r.value.value, true)) else None
  }

  class Store<V(==)> {
    const ttl: nat
    var items: map<Key, Entry<V>>
    var generation: nat
    ghost var log: seq<Op<V>>

    function View(): Contents<V>
      reads this
    {
      Contents(ttl, items, generation)
    }

    ghost predicate Valid()
      reads this
    {
      Follows(View(), log)
    }

    /** What a lookup at time t would return, by the calls made so far. */
    ghost function Says(key: Key, t: int): Option<Hit<V>>
      reads this
    {
      Answer(log, ttl, key, t)
    }

    constructor (ttl: nat)
      ensures Valid() && log == [] && View() == Contents(ttl, map[], 0)
    {
      this.ttl := ttl;
      items := map[];
      generation := 0;
      log := [];
    }

    /** A lookup disturbs no later answer. */
    method GetEntry(key: Key, now: int) returns (r: Option<Hit<V>>)
      requires Valid()
      modifies this
      ensures r == old(Says(key, now))
      ensures forall k, t | now <= t :: Says(k, t) == old(Says(k, t))
      ensures Valid() && log == old(log) + [Get(key, now)] && View() == Perform(old(View()), Get(key, now))
    {
      PerformFollows(View(), log, Get(key, now));
      LookupAnswers(View(), log, key, now);
      forall k {
        RecallAppend(log, Get(key, now), ttl, k);
      }
      log := log + [Get(key, now)];
      if key !in items {
        return None;
      }
      var entry := items[key];
      if now - entry.ts > ttl {
        items := items - {key};
        return None;
      }
      return Some(Hit(entry.value, entry.gen != generation));
    }

    /** The value is served fresh until its TTL passes; other keys are as before. */
    method Put(key: Key, value: V, now: int)
      requires Valid()
      modifies this
      ensures forall t :: Says(key, t) == if t - now <= ttl then Some(Hit(value, false)) else None
      ensures forall k, t | k != key :: Says(k, t) == old(Says(k, t))
      ensures Valid() && log == old(log) + [Op.Put(key, value, now)]
      ensures View() == Perform(old(View()), Op.Put(key, value, now))
    {
      PerformFollows(View(), log, Op.Put(key, value, now));
      forall k {
        RecallAppend(log, Op.Put(key, value, now), ttl, k);
      }
      log := log + [Op.Put(key, value, now)];
      items := items[key := Entry(value, now, generation)];
    }

    /** Everything servable stays servable, as stale. */
    method Invalidate()
      requires Valid()
      modifies this
      ensures forall k, t :: Says(k, t) == Staled(old(Says(k, t)))
      ensures Valid() && log == old(log) + [Op.Invalidate] && View() == Perform(old(View()), Op.Invalidate)
    {
      PerformFollows(View(), log, Op.Invalidate);
      forall k {
        RecallAppend(log, Op.Invalidate, ttl, k);
      }
      log := log + [Op.Invalidate];
      generation := generation + 1;
    }

    /** Nothing is servable. */
    method Clear()
      requires Valid()
      modifies this
      ensures forall k, t :: Says(k, t) == None
      ensures Valid() && log == old(log) + [Op.Clear] && View() == Perform(old(View()), Op.Clear)
    {
      PerformFollows(View(), log, Op.Clear);
      forall k {
        RecallAppend(log, Op.Clear, ttl, k);
      }
      log := log + [Op.Clear];
      items := map[];
      generation := generation + 1;
    }
  }
}
