/** Concurrent use of the response cache (backend/cache.py): request threads,
    background refreshes, warms, invalidations and clears, interleaved at every
    lock acquire and release and at each computation's first query.  `_guard` is Guard, `_registry_guard` is Registry,
    the per-key single-flight lock is KeyLock, and membership of `_refreshing`
    is RefreshSlot. */
module ResponseCache {
  import opened Wrappers
  import opened TtlCache

  type Tid = nat

  const POOL_WORKERS := 2

  /** What one computation returned: the database version its first query read and, as a
      history variable, the generation in force at that read. */
  datatype Value = Value(seen: nat, startGen: nat, author: Tid)

  datatype Resource = Guard | Registry | KeyLock(key: Key) | RefreshSlot(key: Key)

  datatype Pc =
    | WantGuard(key: Key)                       // request: first lookup
    | InGuard(key: Key)
    | WantSlot(key: Key, value: Value)          // stale hit: schedule a refresh
    | InSlot(key: Key, value: Value)
    | Submit(key: Key, value: Value)
    | WantLockTable(key: Key)                   // miss: find the key's lock
    | InLockTable(key: Key)
    | WantKey(key: Key)
    | WantRecheck(key: Key)
    | InRecheck(key: Key)
    | Begun(key: Key)                           // computing, before its first query
    | Compute(key: Key, seen: nat, startGen: nat)
    | WantPut(key: Key, value: Value)
    | InPut(key: Key, value: Value)
    | ReleaseKey(key: Key, result: Option<Value>)
    | Done(result: Option<Value>)
    | Bypass                                    // a truthy `fresh`
    | Queued(key: Key)                          // background refresh job
    | QueuedWarm(key: Key)                      // warm(): a request run by the pool
    | RefreshBegun(key: Key)
    | RefreshCompute(key: Key, seen: nat, startGen: nat)
    | WantRefreshPut(key: Key, value: Value)
    | InRefreshPut(key: Key, value: Value)
    | WantDrop(key: Key)
    | InDrop(key: Key)
    | WantInvalidate
    | InInvalidate
    | WantClear
    | InClear

  /** `floor` is the database version at the last generation bump. */
  datatype State = State(
    now: int,
    db: nat,
    floor: nat,
    cache: Contents<Value>,
    lockTable: set<Key>,
    owner: map<Resource, Tid>,
    threads: map<Tid, Pc>,
    pool: set<Tid>)

  function Init(ttl: nat): State {
    State(0, 0, 0, Contents(ttl, map[], 0), {}, map[], map[], {})
  }

  function Holds(pc: Pc): set<Resource> {
    match pc
    case InGuard(_) => {Guard}
    case InSlot(_, _) => {Registry}
    case Submit(k, _) => {RefreshSlot(k)}
    case InLockTable(_) => {Registry}
    case WantRecheck(k) => {KeyLock(k)}
    case InRecheck(k) => {KeyLock(k), Guard}
    case Begun(k) => {KeyLock(k)}
    case Compute(k, _, _) => {KeyLock(k)}
    case WantPut(k, _) => {KeyLock(k)}
    case InPut(k, _) => {KeyLock(k), Guard}
    case ReleaseKey(k, _) => {KeyLock(k)}
    case Queued(k) => {RefreshSlot(k)}
    case RefreshBegun(k) => {RefreshSlot(k)}
    case RefreshCompute(k, _, _) => {RefreshSlot(k)}
    case WantRefreshPut(k, _) => {RefreshSlot(k)}
    case InRefreshPut(k, _) => {RefreshSlot(k), Guard}
    case WantDrop(k) => {RefreshSlot(k)}
    case InDrop(k) => {RefreshSlot(k), Registry}
    case InInvalidate => {Guard}
    case InClear => {Guard}
    case _ => {}
  }

  /** The lock whose acquire is the thread's next step. */
  function Wants(pc: Pc): set<Resource> {
    match pc
    case WantGuard(_) => {Guard}
    case WantSlot(_, _) => {Registry}
    case WantLockTable(_) => {Registry}
    case WantKey(k) => {KeyLock(k)}
    case WantRecheck(_) => {Guard}
    case WantPut(_, _) => {Guard}
    case WantRefreshPut(_, _) => {Guard}
    case WantDrop(_) => {Registry}
    case WantInvalidate => {Guard}
    case WantClear => {Guard}
    case _ => {}
  }

  predicate InQueue(pc: Pc) {
    pc.Queued? || pc.QueuedWarm?
  }

  predicate CanStep(s: State, t: Tid) {
    && t in s.threads
    && !s.threads[t].Done?
    && Wants(s.threads[t]) !! s.owner.Keys
    && (InQueue(s.threads[t]) ==> |s.pool| < POOL_WORKERS)
  }

  /** Where thread t goes.  `ok` says whether a computation returns or raises. */
  function NextPc(s: State, t: Tid, ok: bool): Pc
    requires t in s.threads
  {
    match s.threads[t]
    case WantGuard(k) => InGuard(k)
    case InGuard(k) =>
      (match Lookup(s.cache, k, s.now)
       case None => WantLockTable(k)
       case Some(hit) => if hit.stale then WantSlot(k, hit.value) else Done(Some(hit.value)))
    case WantSlot(k, v) => InSlot(k, v)
    case InSlot(k, v) => if RefreshSlot(k) in s.owner then Done(Some(v)) else Submit(k, v)
    case Submit(_, v) => Done(Some(v))
    case WantLockTable(k) => InLockTable(k)
    case InLockTable(k) => WantKey(k)
    case WantKey(k) => WantRecheck(k)
    case WantRecheck(k) => InRecheck(k)
    case InRecheck(k) =>
      (match Lookup(s.cache, k, s.now)
       case None => Begun(k)
       case Some(hit) => ReleaseKey(k, Some(hit.value)))
    case Begun(k) => if ok then Compute(k, s.db, s.cache.generation) else ReleaseKey(k, None)
    case Compute(k, seen, g) => if ok then WantPut(k, Value(seen, g, t)) else ReleaseKey(k, None)
    case WantPut(k, v) => InPut(k, v)
    case InPut(k, v) => ReleaseKey(k, Some(v))
    case ReleaseKey(_, r) => Done(r)
    case Done(r) => Done(r)
    case Bypass => Done(if ok then Some(Value(s.db, s.cache.generation, t)) else None)
    case Queued(k) => RefreshBegun(k)
    case QueuedWarm(k) => WantGuard(k)
    case RefreshBegun(k) => if ok then RefreshCompute(k, s.db, s.cache.generation) else WantDrop(k)
    case RefreshCompute(k, seen, g) => if ok then WantRefreshPut(k, Value(seen, g, t)) else WantDrop(k)
    case WantRefreshPut(k, v) => InRefreshPut(k, v)
    case InRefreshPut(k, _) => WantDrop(k)
    case WantDrop(k) => InDrop(k)
    case InDrop(_) => Done(None)
    case WantInvalidate => InInvalidate
    case InInvalidate => Done(None)
    case WantClear => InClear
    case InClear => Done(None)
  }

  function NextCache(s: State, pc: Pc): Contents<Value> {
    match pc
    case InGuard(k) => AfterLookup(s.cache, k, s.now)
    case InRecheck(k) => AfterLookup(s.cache, k, s.now)
    case InPut(k, v) => Stored(s.cache, k, v, s.now)
    case InRefreshPut(k, v) => Stored(s.cache, k, v, s.now)
    case InInvalidate => Invalidated(s.cache)
    case InClear => Cleared(s.cache)
    case _ => s.cache
  }

  /** Ownership after a thread trades what `from` holds for what `to` holds. */
  function Handover(owner: map<Resource, Tid>, from: set<Resource>, to: set<Resource>, t: Tid): map<Resource, Tid> {
    (owner - from) + (map r | r in to :: t)
  }

  function NextPool(s: State, t: Tid, to: Pc): set<Tid>
    requires t in s.threads
  {
    if InQueue(s.threads[t]) then s.pool + {t}
    else if to.Done? then s.pool - {t}
    else s.pool
  }

  /** One atomic step of thread t.  `job` names the refresh job a Submit enqueues. */
  function ThreadStep(s: State, t: Tid, ok: bool, job: Tid): State
    requires t in s.threads
  {
    var from := s.threads[t];
    var to := NextPc(s, t, ok);
    var moved := s.(
      cache := NextCache(s, from),
      floor := if from.InInvalidate? || from.InClear? then s.db else s.floor,
      lockTable := if from.InLockTable? then s.lockTable + {from.key} else s.lockTable,
      owner := Handover(s.owner, Holds(from), Holds(to), t),
      threads := s.threads[t := to],
      pool := NextPool(s, t, to));
    if from.Submit? then
      moved.(threads := moved.threads[job := Queued(from.key)],
             owner := moved.owner[RefreshSlot(from.key) := job])
    else moved
  }

  datatype Event =
    | Arrive(tid: Tid, pc: Pc)       // a request, bypass, warm, invalidation or clear
    | Step(tid: Tid, ok: bool, job: Tid)
    | Tick(elapsed: nat)             // the clock never runs backwards
    | Commit                         // the database changes

  predicate IsArrival(pc: Pc) {
    pc.WantGuard? || pc.Bypass? || pc.QueuedWarm? || pc.WantInvalidate? || pc.WantClear?
  }

  predicate Enabled(s: State, e: Event) {
    match e
    case Arrive(t, pc) => t !in s.threads && IsArrival(pc)
    case Step(t, _, job) => CanStep(s, t) && (s.threads[t].Submit? ==> job !in s.threads)
    case Tick(_) => true
    case Commit => true
  }

  function Apply(s: State, e: Event): State
    requires Enabled(s, e)
  {
    match e
    case Arrive(t, pc) => s.(threads := s.threads[t := pc])
    case Step(t, ok, job) => ThreadStep(s, t, ok, job)
    case Tick(d) => s.(now := s.now + d)
    case Commit => s.(db := s.db + 1)
  }

  predicate Next(s: State, e: Event, s': State) {
    Enabled(s, e) && s' == Apply(s, e)
  }

  ghost predicate IsRun(ss: seq<State>, es: seq<Event>) {
    && |ss| == |es| + 1
    && forall i {:trigger es[i]} | 0 <= i < |es| :: Next(ss[i], es[i], ss[i + 1])
  }

  lemma RunStep(ss: seq<State>, es: seq<Event>, i: nat)
    requires IsRun(ss, es) && i < |ss| - 1
    ensures |ss| == |es| + 1 && Next(ss[i], es[i], ss[i + 1])
  {
  }

  // ------------------------------------------------------------------
  // Invariant
  // ------------------------------------------------------------------

  function HeldBy(threads: map<Tid, Pc>): map<Tid, set<Resource>> {
    map t | t in threads :: Holds(threads[t])
  }

  ghost predicate Consistent(owner: map<Resource, Tid>, held: map<Tid, set<Resource>>) {
    && (forall t, r | t in held && r in held[t] :: r in owner && owner[r] == t)
    && (forall r | r in owner :: owner[r] in held && r in held[owner[r]])
  }

  /** Every resource is owned by exactly the thread whose program point holds it. */
  ghost predicate Owned(s: State) {
    Consistent(s.owner, HeldBy(s.threads))
  }

  ghost predicate PoolOk(s: State) {
    && |s.pool| <= POOL_WORKERS
    && forall t | t in s.pool :: t in s.threads && !s.threads[t].Done? && !InQueue(s.threads[t])
  }

  /** A computation begun in the current generation read data at least as new as its bump. */
  predicate Recent(s: State, seen: nat, startGen: nat) {
    && startGen <= s.cache.generation
    && (startGen == s.cache.generation ==> s.floor <= seen)
  }

  predicate PcRecent(s: State, pc: Pc) {
    match pc
    case Compute(_, seen, g) => Recent(s, seen, g)
    case RefreshCompute(_, seen, g) => Recent(s, seen, g)
    case WantPut(_, v) => Recent(s, v.seen, v.startGen)
    case InPut(_, v) => Recent(s, v.seen, v.startGen)
    case WantRefreshPut(_, v) => Recent(s, v.seen, v.startGen)
    case InRefreshPut(_, v) => Recent(s, v.seen, v.startGen)
    case _ => true
  }

  ghost predicate ThreadsRecent(s: State) {
    forall t | t in s.threads :: PcRecent(s, s.threads[t])
  }

  predicate EntryOk(s: State, entry: Entry<Value>) {
    && Recent(s, entry.value.seen, entry.value.startGen)
    && entry.value.startGen <= entry.gen <= s.cache.generation
    && entry.ts <= s.now
  }

  ghost predicate DataOk(s: State) {
    && s.floor <= s.db
    && ThreadsRecent(s)
    && (forall k | k in s.cache.items :: EntryOk(s, s.cache.items[k]))
  }

  ghost predicate LocksExist(s: State) {
    forall t | t in s.threads :: LockUses(s.threads[t]) <= s.lockTable
  }

  ghost predicate Inv(s: State) {
    Owned(s) && PoolOk(s) && DataOk(s) && LocksExist(s)
  }

  lemma HandoverConsistent(owner: map<Resource, Tid>, held: map<Tid, set<Resource>>, t: Tid, to: set<Resource>)
    requires Consistent(owner, held) && t in held
    requires to - held[t] !! owner.Keys
    ensures Consistent(Handover(owner, held[t], to, t), held[t := to])
  {
    var owner', held' := Handover(owner, held[t], to, t), held[t := to];
    forall u, r | u in held' && r in held'[u]
      ensures r in owner' && owner'[r] == u
    {
      if u != t {
        assert r in held[u] && r in owner && r !in held[t] && r !in to;
      }
    }
    forall r | r in owner'
      ensures owner'[r] in held' && r in held'[owner'[r]]
    {
      if r !in to {
        assert r in owner && r !in held[t] && owner'[r] == owner[r];
      }
    }
  }

  lemma AcquiresOnlyFree(s: State, t: Tid, ok: bool)
    requires CanStep(s, t)
    ensures Holds(NextPc(s, t, ok)) - Holds(s.threads[t]) !! s.owner.Keys
  {
  }

  /** A submission hands its refresh mark over, to a job that holds nothing else. */
  lemma SubmitLetsGo(s: State, t: Tid, ok: bool)
    requires t in s.threads && s.threads[t].Submit?
    ensures Holds(NextPc(s, t, ok)) == {} && Holds(s.threads[t]) == {RefreshSlot(s.threads[t].key)}
    ensures Holds(Queued(s.threads[t].key)) == {RefreshSlot(s.threads[t].key)}
  {
  }

  lemma StepKeepsOwned(s: State, t: Tid, ok: bool, job: Tid)
    requires Owned(s) && Enabled(s, Step(t, ok, job))
    ensures Owned(ThreadStep(s, t, ok, job))
  {
    var from, to := s.threads[t], NextPc(s, t, ok);
    AcquiresOnlyFree(s, t, ok);
    if from.Submit? {
      SubmitLetsGo(s, t, ok);
    }
    hide Consistent, NextPc, NextCache, NextPool, Holds, Wants;
    HandoverConsistent(s.owner, HeldBy(s.threads), t, Holds(to));
    var owner := Handover(s.owner, Holds(from), Holds(to), t);
    var threads := s.threads[t := to];
    assert HeldBy(threads) == HeldBy(s.threads)[t := Holds(to)];
    if from.Submit? {
      JoinConsistent(owner, HeldBy(threads), job, RefreshSlot(from.key));
      assert HeldBy(threads[job := Queued(from.key)]) == HeldBy(threads)[job := {RefreshSlot(from.key)}];
    }
  }

  /** A new thread takes over a resource nobody owns. */
  lemma JoinConsistent(owner: map<Resource, Tid>, held: map<Tid, set<Resource>>, job: Tid, r: Resource)
    requires Consistent(owner, held) && job !in held && r !in owner
    ensures Consistent(owner[r := job], held[job := {r}])
  {
    HandoverConsistent(owner, held[job := {}], job, {r});
    assert held[job := {}][job := {r}] == held[job := {r}];
    assert owner[r := job] == Handover(owner, {}, {r}, job);
  }

  lemma StepKeepsPool(s: State, t: Tid, ok: bool, job: Tid)
    requires PoolOk(s) && Enabled(s, Step(t, ok, job))
    ensures PoolOk(ThreadStep(s, t, ok, job))
  {
    var from, to := s.threads[t], NextPc(s, t, ok);
    PoolShape(s, t, ok);
    var pool := NextPool(s, t, to);
    if InQueue(from) {
      assert t !in s.pool;
    } else {
      assert pool <= s.pool;
      SubsetSize(pool, s.pool);
    }
    forall u | u in pool
      ensures u in s.threads[t := to] && !s.threads[t := to][u].Done? && !InQueue(s.threads[t := to][u])
    {
    }
    assert ThreadStep(s, t, ok, job).pool == pool;
  }

  lemma PoolShape(s: State, t: Tid, ok: bool)
    requires t in s.threads
    ensures !InQueue(NextPc(s, t, ok))
    ensures InQueue(s.threads[t]) ==> !NextPc(s, t, ok).Done?
  {
  }

  lemma SubsetSize(a: set<Tid>, b: set<Tid>)
    requires a <= b
    ensures |a| <= |b|
  {
    assert b == a + (b - a);
  }

  lemma StepKeepsEntries(s: State, t: Tid, ok: bool, job: Tid)
    requires DataOk(s) && Enabled(s, Step(t, ok, job))
    ensures var s' := ThreadStep(s, t, ok, job);
            s'.floor <= s'.db && forall k | k in s'.cache.items :: EntryOk(s', s'.cache.items[k])
  {
    assert PcRecent(s, s.threads[t]);
    hide ThreadsRecent;
  }

  /** What one thread's point carries stays recent whatever thread t does. */
  lemma RecentAfterStep(s: State, t: Tid, ok: bool, job: Tid, pc: Pc)
    requires s.floor <= s.db && Enabled(s, Step(t, ok, job)) && PcRecent(s, pc)
    ensures PcRecent(ThreadStep(s, t, ok, job), pc)
  {
  }

  lemma NewPcRecent(s: State, t: Tid, ok: bool, job: Tid)
    requires s.floor <= s.db && Enabled(s, Step(t, ok, job)) && PcRecent(s, s.threads[t])
    ensures PcRecent(ThreadStep(s, t, ok, job), NextPc(s, t, ok))
  {
  }

  lemma StepKeepsData(s: State, t: Tid, ok: bool, job: Tid)
    requires DataOk(s) && Enabled(s, Step(t, ok, job))
    ensures DataOk(ThreadStep(s, t, ok, job))
  {
    StepKeepsEntries(s, t, ok, job);
    var s' := ThreadStep(s, t, ok, job);
    NewPcRecent(s, t, ok, job);
    forall u | u in s'.threads ensures PcRecent(s', s'.threads[u]) {
      hide NextPc, NextCache, CanStep;
      if u != t && u in s.threads && (s.threads[t].Submit? ==> u != job) {
        RecentAfterStep(s, t, ok, job, s.threads[u]);
      }
    }
  }

  function LockUses(pc: Pc): set<Key> {
    set r | r in Wants(pc) + Holds(pc) && r.KeyLock? :: r.key
  }

  lemma NewLockUse(s: State, t: Tid, ok: bool)
    requires t in s.threads
    ensures forall k | k in LockUses(NextPc(s, t, ok)) ::
      k in LockUses(s.threads[t]) || (s.threads[t].InLockTable? && k == s.threads[t].key)
  {
    LockUseOf(s.threads[t]);
    LockUseOf(NextPc(s, t, ok));
    hide LockUses, Lookup, Holds, Wants;
  }

  /** The key lock a program point wants or holds. */
  predicate UsesLock(pc: Pc) {
    pc.WantKey? || pc.WantRecheck? || pc.InRecheck? || pc.Begun? || pc.Compute? || pc.WantPut? || pc.InPut?
    || pc.ReleaseKey?
  }

  lemma LockUseOf(pc: Pc)
    ensures LockUses(pc) == if UsesLock(pc) then {pc.key} else {}
  {
    var used := Wants(pc) + Holds(pc);
    if UsesLock(pc) {
      assert KeyLock(pc.key) in used;
    }
    assert forall r | r in used && r.KeyLock? :: UsesLock(pc) && r.key == pc.key;
  }

  lemma StepKeepsLocks(s: State, t: Tid, ok: bool, job: Tid)
    requires LocksExist(s) && Enabled(s, Step(t, ok, job))
    ensures LocksExist(ThreadStep(s, t, ok, job))
  {
    NewLockUse(s, t, ok);
    QueuedUsesNoLock();
    hide NextPc, NextCache, NextPool, Handover, Holds, Wants, LockUses;
    var s' := ThreadStep(s, t, ok, job);
    assert s.lockTable <= s'.lockTable;
  }

  lemma QueuedUsesNoLock()
    ensures forall k :: LockUses(Queued(k)) == {}
  {
  }

  lemma ArrivalShape(s: State, pc: Pc)
    requires IsArrival(pc)
    ensures Holds(pc) == {} && LockUses(pc) == {} && PcRecent(s, pc)
  {
  }

  lemma ArrivalKeepsOwned(s: State, t: Tid, pc: Pc)
    requires Owned(s) && t !in s.threads && Holds(pc) == {}
    ensures Owned(s.(threads := s.threads[t := pc]))
  {
    assert HeldBy(s.threads[t := pc]) == HeldBy(s.threads)[t := {}];
  }

  lemma ArrivalKeepsPool(s: State, t: Tid, pc: Pc)
    requires PoolOk(s) && t !in s.threads
    ensures PoolOk(s.(threads := s.threads[t := pc]))
  {
  }

  lemma ArrivalKeepsData(s: State, t: Tid, pc: Pc)
    requires DataOk(s) && t !in s.threads && PcRecent(s, pc)
    ensures DataOk(s.(threads := s.threads[t := pc]))
  {
    var s' := s.(threads := s.threads[t := pc]);
    forall u | u in s'.threads ensures PcRecent(s', s'.threads[u]) {
      RecentSameCache(s, s', s'.threads[u]);
    }
  }

  lemma ArrivalKeepsLocks(s: State, t: Tid, pc: Pc)
    requires LocksExist(s) && LockUses(pc) == {}
    ensures LocksExist(s.(threads := s.threads[t := pc]))
  {
  }

  lemma ArrivalKeepsInv(s: State, t: Tid, pc: Pc)
    requires Inv(s) && Enabled(s, Arrive(t, pc))
    ensures Inv(s.(threads := s.threads[t := pc]))
  {
    ArrivalShape(s, pc);
    ArrivalKeepsOwned(s, t, pc);
    ArrivalKeepsPool(s, t, pc);
    ArrivalKeepsData(s, t, pc);
    ArrivalKeepsLocks(s, t, pc);
  }

  lemma RecentSameCache(s: State, s': State, pc: Pc)
    requires s.cache == s'.cache && s.floor == s'.floor
    ensures PcRecent(s, pc) == PcRecent(s', pc)
  {
  }

  lemma StepKeepsInv(s: State, t: Tid, ok: bool, job: Tid)
    requires Inv(s) && Enabled(s, Step(t, ok, job))
    ensures Inv(ThreadStep(s, t, ok, job))
  {
    StepKeepsOwned(s, t, ok, job);
    StepKeepsPool(s, t, ok, job);
    StepKeepsData(s, t, ok, job);
    StepKeepsLocks(s, t, ok, job);
  }

  lemma ApplyKeepsInv(s: State, e: Event)
    requires Inv(s) && Enabled(s, e)
    ensures Inv(Apply(s, e))
  {
    hide Inv, ThreadStep, CanStep;
    match e
    case Step(t, ok, job) => StepKeepsInv(s, t, ok, job);
    case Arrive(t, pc) => ArrivalKeepsInv(s, t, pc);
    case Tick(d) => EnvironmentKeepsInv(s, s.now + d, s.db);
    case Commit => EnvironmentKeepsInv(s, s.now, s.db + 1);
  }

  lemma EnvironmentKeepsInv(s: State, now: int, db: nat)
    requires Inv(s) && s.now <= now && s.db <= db
    ensures Inv(s.(now := now, db := db))
  {
    var s' := s.(now := now, db := db);
    forall u | u in s.threads ensures PcRecent(s', s.threads[u]) {
      RecentSameCache(s, s', s.threads[u]);
    }
  }

  lemma {:induction false} RunKeepsInv(ss: seq<State>, es: seq<Event>, i: nat)
    requires IsRun(ss, es) && Inv(ss[0]) && i < |ss|
    ensures Inv(ss[i])
  {
    hide Inv, IsRun, Enabled, Apply;
    if i > 0 {
      RunKeepsInv(ss, es, i - 1);
      RunStep(ss, es, i - 1);
      ApplyKeepsInv(ss[i - 1], es[i - 1]);
    }
  }

  lemma InitInv(ttl: nat)
    ensures Inv(Init(ttl))
  {
  }

  // ------------------------------------------------------------------
  // Single flight
  // ------------------------------------------------------------------

  /** Thread point pc is running the endpoint inline for key k, or storing its result. */
  predicate ComputesInline(pc: Pc, k: Key) {
    (pc.Begun? || pc.Compute? || pc.WantPut? || pc.InPut?) && pc.key == k
  }

  /** pc is a refresh of key k that is being submitted, queued or run. */
  predicate RefreshPending(pc: Pc, k: Key) {
    (pc.Submit? || pc.Queued? || pc.RefreshBegun? || pc.RefreshCompute? || pc.WantRefreshPut? || pc.InRefreshPut?
     || pc.WantDrop? || pc.InDrop?) && pc.key == k
  }

  predicate Computing(pc: Pc, k: Key) {
    (pc.Begun? || pc.Compute? || pc.RefreshBegun? || pc.RefreshCompute?) && pc.key == k
  }

  function ComputingNow(s: State, k: Key): set<Tid> {
    set t | t in s.threads && Computing(s.threads[t], k)
  }

  lemma HoldsLock(pc: Pc, k: Key)
    ensures ComputesInline(pc, k) ==> KeyLock(k) in Holds(pc)
    ensures RefreshPending(pc, k) <==> RefreshSlot(k) in Holds(pc)
  {
  }

  lemma OwnerIsUnique(s: State, t: Tid, u: Tid, r: Resource)
    requires Owned(s) && t in s.threads && u in s.threads
    requires r in Holds(s.threads[t]) && r in Holds(s.threads[u])
    ensures t == u
  {
    var held := HeldBy(s.threads);
    assert r in held[t] && r in held[u];
    assert s.owner[r] == t && s.owner[r] == u;
  }

  /** In every reachable state each key has at most one inline computation and at
      most one refresh, so at most two computations run for it. */
  lemma SingleFlight(ss: seq<State>, es: seq<Event>, ttl: nat, i: nat, k: Key)
    requires IsRun(ss, es) && ss[0] == Init(ttl) && i < |ss|
    ensures forall t, u | t in ss[i].threads && u in ss[i].threads ::
      && (ComputesInline(ss[i].threads[t], k) && ComputesInline(ss[i].threads[u], k) ==> t == u)
      && (RefreshPending(ss[i].threads[t], k) && RefreshPending(ss[i].threads[u], k) ==> t == u)
    ensures |ComputingNow(ss[i], k)| <= 2
    ensures RefreshSlot(k) in ss[i].owner <==> exists t | t in ss[i].threads :: RefreshPending(ss[i].threads[t], k)
  {
    InitInv(ttl);
    RunKeepsInv(ss, es, i);
    var s := ss[i];
    forall t, u | t in s.threads && u in s.threads
      ensures ComputesInline(s.threads[t], k) && ComputesInline(s.threads[u], k) ==> t == u
      ensures RefreshPending(s.threads[t], k) && RefreshPending(s.threads[u], k) ==> t == u
    {
      SameKeySameThread(s, t, u, k);
    }
    AtMostTwo(s, k);
    RefreshMarkIsAccurate(s, k);
  }

  lemma SameKeySameThread(s: State, t: Tid, u: Tid, k: Key)
    requires Owned(s) && t in s.threads && u in s.threads
    ensures ComputesInline(s.threads[t], k) && ComputesInline(s.threads[u], k) ==> t == u
    ensures RefreshPending(s.threads[t], k) && RefreshPending(s.threads[u], k) ==> t == u
  {
    HoldsLock(s.threads[t], k);
    HoldsLock(s.threads[u], k);
    if ComputesInline(s.threads[t], k) && ComputesInline(s.threads[u], k) {
      OwnerIsUnique(s, t, u, KeyLock(k));
    }
    if RefreshPending(s.threads[t], k) && RefreshPending(s.threads[u], k) {
      OwnerIsUnique(s, t, u, RefreshSlot(k));
    }
  }

  lemma RefreshMarkIsAccurate(s: State, k: Key)
    requires Owned(s)
    ensures RefreshSlot(k) in s.owner <==> exists t | t in s.threads :: RefreshPending(s.threads[t], k)
  {
    var r := RefreshSlot(k);
    if r in s.owner {
      var t := s.owner[r];
      assert t in HeldBy(s.threads) && r in HeldBy(s.threads)[t];
      HoldsLock(s.threads[t], k);
    }
    if t :| t in s.threads && RefreshPending(s.threads[t], k) {
      HoldsLock(s.threads[t], k);
      assert r in HeldBy(s.threads)[t];
    }
  }

  lemma AtMostTwo(s: State, k: Key)
    requires Owned(s)
    ensures |ComputingNow(s, k)| <= 2
  {
    var inline := set t | t in s.threads && ComputesInline(s.threads[t], k);
    var refresh := set t | t in s.threads && RefreshPending(s.threads[t], k);
    forall t, u | t in s.threads && u in s.threads
      ensures t in inline && u in inline ==> t == u
      ensures t in refresh && u in refresh ==> t == u
    {
      SameKeySameThread(s, t, u, k);
    }
    AtMostOne(inline);
    AtMostOne(refresh);
    assert ComputingNow(s, k) <= inline + refresh;
    SubsetSize(ComputingNow(s, k), inline + refresh);
    assert |inline + refresh| <= |inline| + |refresh|;
  }

  lemma AtMostOne(a: set<Tid>)
    requires forall t, u | t in a && u in a :: t == u
    ensures |a| <= 1
  {
    if a != {} {
      var t :| t in a;
      assert a == {t};
    }
  }

  // ------------------------------------------------------------------
  // Progress: no deadlock, and every thread finishes if arrivals stop
  // ------------------------------------------------------------------

  lemma GuardOwnerCanStep(s: State, r: Resource)
    requires Owned(s) && PoolOk(s) && r in s.owner && (r == Guard || r == Registry)
    ensures CanStep(s, s.owner[r])
  {
    var t := s.owner[r];
    assert t in HeldBy(s.threads) && r in HeldBy(s.threads)[t];
  }

  /** With both guards free, a thread that cannot step waits for a key lock or for the pool. */
  lemma BlockedOnKeyOrPool(s: State, t: Tid)
    requires t in s.threads && !s.threads[t].Done? && !CanStep(s, t)
    requires Guard !in s.owner && Registry !in s.owner
    ensures InQueue(s.threads[t]) || (s.threads[t].WantKey? && KeyLock(s.threads[t].key) in s.owner)
  {
  }

  lemma KeyOwnerCanStep(s: State, k: Key)
    requires Owned(s) && KeyLock(k) in s.owner
    requires Guard !in s.owner && Registry !in s.owner
    ensures CanStep(s, s.owner[KeyLock(k)])
  {
    var t := s.owner[KeyLock(k)];
    assert t in HeldBy(s.threads) && KeyLock(k) in HeldBy(s.threads)[t];
  }

  /** While any thread is unfinished, some thread can step: no set of threads deadlocks. */
  lemma NoDeadlock(s: State, t: Tid) returns (u: Tid)
    requires Inv(s) && t in s.threads && !s.threads[t].Done?
    ensures CanStep(s, u)
  {
    if Guard in s.owner {
      GuardOwnerCanStep(s, Guard);
      return s.owner[Guard];
    }
    if Registry in s.owner {
      GuardOwnerCanStep(s, Registry);
      return s.owner[Registry];
    }
    u := t;
    if !CanStep(s, u) && InQueue(s.threads[u]) {
      QueueWaitsForPool(s, u);
      u :| u in s.pool;
    }
    if !CanStep(s, u) {
      BlockedOnKeyOrPool(s, u);
      KeyOwnerCanStep(s, s.threads[u].key);
      u := s.owner[KeyLock(s.threads[u].key)];
    }
  }

  lemma QueueWaitsForPool(s: State, t: Tid)
    requires t in s.threads && InQueue(s.threads[t]) && !CanStep(s, t)
    ensures s.pool != {}
  {
    assert Wants(s.threads[t]) == {};
  }

  /** Steps a thread can still take, counting the refresh job it may submit. */
  function Rank(pc: Pc): nat {
    match pc
    case QueuedWarm(_) => 22
    case WantGuard(_) => 21
    case InGuard(_) => 20
    case WantSlot(_, _) => 10
    case InSlot(_, _) => 9
    case Submit(_, _) => 8
    case WantLockTable(_) => 10
    case InLockTable(_) => 9
    case WantKey(_) => 8
    case WantRecheck(_) => 7
    case InRecheck(_) => 6
    case Begun(_) => 5
    case Compute(_, _, _) => 4
    case WantPut(_, _) => 3
    case InPut(_, _) => 2
    case ReleaseKey(_, _) => 1
    case Done(_) => 0
    case Bypass => 1
    case Queued(_) => 7
    case RefreshBegun(_) => 6
    case RefreshCompute(_, _, _) => 5
    case WantRefreshPut(_, _) => 4
    case InRefreshPut(_, _) => 3
    case WantDrop(_) => 2
    case InDrop(_) => 1
    case WantInvalidate => 2
    case InInvalidate => 1
    case WantClear => 2
    case InClear => 1
  }

  ghost function Work(threads: map<Tid, Pc>): nat {
    if threads == map[] then 0
    else var t :| t in threads; Rank(threads[t]) + Work(threads - {t})
  }

  lemma {:induction false} WorkWithout(threads: map<Tid, Pc>, t: Tid)
    requires t in threads
    ensures Work(threads) == Rank(threads[t]) + Work(threads - {t})
    decreases threads
  {
    var u :| u in threads && Work(threads) == Rank(threads[u]) + Work(threads - {u});
    if u != t {
      WorkWithout(threads - {u}, t);
      WorkWithout(threads - {t}, u);
      assert threads - {u} - {t} == threads - {t} - {u};
    }
  }

  lemma RankFalls(s: State, t: Tid, ok: bool)
    requires CanStep(s, t)
    ensures Rank(NextPc(s, t, ok)) + (if s.threads[t].Submit? then 7 else 0) < Rank(s.threads[t])
  {
  }

  lemma StepDoesWork(s: State, t: Tid, ok: bool, job: Tid)
    requires Enabled(s, Step(t, ok, job))
    ensures Work(ThreadStep(s, t, ok, job).threads) < Work(s.threads)
  {
    RankFalls(s, t, ok);
    hide NextPc, NextCache, NextPool, Handover, Holds, Wants, Work;
    var moved := s.threads[t := NextPc(s, t, ok)];
    WorkWithout(s.threads, t);
    WorkWithout(moved, t);
    assert moved - {t} == s.threads - {t};
    if s.threads[t].Submit? {
      var joined := moved[job := Queued(s.threads[t].key)];
      WorkWithout(joined, job);
      assert joined - {job} == moved;
    }
  }

  /** Without arrivals a run takes at most Work(initial) thread steps. */
  lemma {:induction false} RunIsBounded(ss: seq<State>, es: seq<Event>, n: nat)
    requires IsRun(ss, es) && n <= |es|
    requires forall e | e in es :: !e.Arrive?
    ensures ThreadSteps(es[..n]) + Work(ss[n].threads) <= Work(ss[0].threads)
  {
    if n > 0 {
      RunIsBounded(ss, es, n - 1);
      assert es[..n][..n - 1] == es[..n - 1];
      assert es[n - 1] in es;
      match es[n - 1]
      case Step(t, ok, job) => StepDoesWork(ss[n - 1], t, ok, job);
      case _ =>
    }
  }

  function ThreadSteps(es: seq<Event>): nat {
    if es == [] then 0 else ThreadSteps(es[..|es| - 1]) + if es[|es| - 1].Step? then 1 else 0
  }

  // ------------------------------------------------------------------
  // Serving within the TTL
  // ------------------------------------------------------------------

  predicate Acts(s: State, e: Event) {
    e.Step? && e.tid in s.threads
  }

  predicate Clears(s: State, e: Event) {
    Acts(s, e) && s.threads[e.tid].InClear?
  }

  /** The step raises the generation: an invalidation or a clear. */
  predicate Bumps(s: State, e: Event) {
    Acts(s, e) && (s.threads[e.tid].InInvalidate? || s.threads[e.tid].InClear?)
  }

  predicate PutsKey(s: State, e: Event, k: Key) {
    Acts(s, e) && (s.threads[e.tid].InPut? || s.threads[e.tid].InRefreshPut?) && s.threads[e.tid].key == k
  }

  /** What the put at state s stores. */
  function PutEntry(s: State, e: Event, k: Key): Entry<Value>
    requires PutsKey(s, e, k)
  {
    Entry(s.threads[e.tid].value, s.now, s.cache.generation)
  }

  lemma EffectOfPut(s: State, e: Event, s': State, k: Key)
    requires Next(s, e, s') && PutsKey(s, e, k)
    ensures k in s'.cache.items && s'.cache.items[k] == PutEntry(s, e, k)
    ensures s'.cache.items[k].ts == s.now
  {
    ClockAndCache(s, e, s');
    hide Next;
  }

  lemma EffectOfOthers(s: State, e: Event, s': State, k: Key)
    requires Next(s, e, s') && !Clears(s, e) && !PutsKey(s, e, k)
    requires k in s.cache.items && s.now - s.cache.items[k].ts <= s.cache.ttl
    ensures k in s'.cache.items && s'.cache.items[k] == s.cache.items[k]
  {
    ClockAndCache(s, e, s');
    hide Next;
  }

  lemma ClockAdvances(s: State, e: Event, s': State)
    requires Next(s, e, s')
    ensures s.now <= s'.now && s'.cache.ttl == s.cache.ttl
    ensures s'.cache.generation == s.cache.generation + if Bumps(s, e) then 1 else 0
  {
    ClockAndCache(s, e, s');
    hide Next;
  }

  /** The clock never runs backwards, and only a thread's step touches the cache. */
  lemma ClockAndCache(s: State, e: Event, s': State)
    requires Next(s, e, s')
    ensures s.now <= s'.now && (e.Step? ==> e.tid in s.threads)
    ensures s'.cache == if e.Step? then NextCache(s, s.threads[e.tid]) else s.cache
  {
    hide NextPc, NextCache, NextPool, Handover, Holds, Wants, IsArrival;
  }

  lemma {:induction false} ClockMonotone(ss: seq<State>, es: seq<Event>, i: nat, j: nat)
    requires IsRun(ss, es) && i <= j < |ss|
    ensures ss[i].now <= ss[j].now && ss[i].cache.ttl == ss[j].cache.ttl
  {
    hide *;
    if i < j {
      ClockMonotone(ss, es, i, j - 1);
      RunStep(ss, es, j - 1);
      ClockAdvances(ss[j - 1], es[j - 1], ss[j]);
    }
  }

  lemma {:induction false} EntryKept(ss: seq<State>, es: seq<Event>, i: nat, j: nat, k: Key)
    requires IsRun(ss, es) && i < j < |ss| && PutsKey(ss[i], es[i], k)
    requires forall m | i <= m < j :: !Clears(ss[m], es[m])
    requires ss[j].now - ss[i].now <= ss[i].cache.ttl
    ensures k in ss[j].cache.items && ss[i].now <= ss[j].cache.items[k].ts
  {
    hide *;
    RunStep(ss, es, j - 1);
    var s, e := ss[j - 1], es[j - 1];
    ClockMonotone(ss, es, i, j - 1);
    ClockMonotone(ss, es, j - 1, j);
    if PutsKey(s, e, k) {
      EffectOfPut(s, e, ss[j], k);
    } else {
      EntryKept(ss, es, i, j - 1, k);
      EffectOfOthers(s, e, ss[j], k);
    }
  }

  lemma PutStampsNow(s: State, e: Event, k: Key)
    requires PutsKey(s, e, k)
    ensures PutEntry(s, e, k).ts == s.now
  {
  }

  lemma {:induction false} EntryUnchanged(ss: seq<State>, es: seq<Event>, i: nat, j: nat, k: Key)
    requires IsRun(ss, es) && i < j < |ss| && PutsKey(ss[i], es[i], k)
    requires forall m | i <= m < j :: !Clears(ss[m], es[m])
    requires forall m | i < m < j :: !PutsKey(ss[m], es[m], k)
    requires ss[j].now - ss[i].now <= ss[i].cache.ttl
    ensures k in ss[j].cache.items && ss[j].cache.items[k] == PutEntry(ss[i], es[i], k)
  {
    hide *;
    RunStep(ss, es, j - 1);
    var s, e := ss[j - 1], es[j - 1];
    ClockMonotone(ss, es, i, j - 1);
    ClockMonotone(ss, es, j - 1, j);
    if j == i + 1 {
      EffectOfPut(s, e, ss[j], k);
    } else {
      EntryUnchanged(ss, es, i, j - 1, k);
      PutStampsNow(ss[i], es[i], k);
      EffectOfOthers(s, e, ss[j], k);
    }
  }

  /** A key put at step i is served at every later state j of the same run while
      no clear intervenes and the TTL since the put has not passed: invalidations
      never cause a miss.  Unless another put of the key intervenes, what is
      served is the value that was put. */
  lemma ServedWithinTtl(ss: seq<State>, es: seq<Event>, i: nat, j: nat, k: Key)
    requires IsRun(ss, es) && i < j < |ss| && PutsKey(ss[i], es[i], k)
    requires forall m | i <= m < j :: !Clears(ss[m], es[m])
    requires ss[j].now - ss[i].now <= ss[i].cache.ttl
    ensures Lookup(ss[j].cache, k, ss[j].now).Some?
    ensures (forall m | i < m < j :: !PutsKey(ss[m], es[m], k)) ==>
              Lookup(ss[j].cache, k, ss[j].now).value.value == ss[i].threads[es[i].tid].value
  {
    ClockMonotone(ss, es, i, j);
    EntryKept(ss, es, i, j, k);
    if forall m | i < m < j :: !PutsKey(ss[m], es[m], k) {
      EntryUnchanged(ss, es, i, j, k);
    }
  }

  /** A thread that rechecks the key after a successful inline computation, as every
      thread queued behind it does, finds the key, if it neither expired nor was cleared, and returns without
      computing; it returns that computation's value unless a refresh replaced it. */
  lemma WaiterReturnsStoredValue(ss: seq<State>, es: seq<Event>, i: nat, j: nat, u: Tid, k: Key, ok: bool)
    requires IsRun(ss, es) && i < j < |ss|
    requires PutsKey(ss[i], es[i], k) && ss[i].threads[es[i].tid].InPut?
    requires forall m | i <= m < j :: !Clears(ss[m], es[m])
    requires ss[j].now - ss[i].now <= ss[i].cache.ttl
    requires u in ss[j].threads && ss[j].threads[u] == InRecheck(k)
    ensures NextPc(ss[j], u, ok).ReleaseKey? && NextPc(ss[j], u, ok).result.Some?
    ensures (forall m | i < m < j :: !PutsKey(ss[m], es[m], k)) ==>
              NextPc(ss[j], u, ok) == ReleaseKey(k, Some(ss[i].threads[es[i].tid].value))
  {
    ServedWithinTtl(ss, es, i, j, k);
  }

  // ------------------------------------------------------------------
  // What a fresh hit promises
  // ------------------------------------------------------------------

  function BumpCount(ss: seq<State>, es: seq<Event>, i: nat, j: nat): nat
    requires |ss| == |es| + 1 && i <= j <= |es|
  {
    if i == j then 0
    else BumpCount(ss, es, i, j - 1) + if Bumps(ss[j - 1], es[j - 1]) then 1 else 0
  }

  lemma {:induction false} GenerationCountsBumps(ss: seq<State>, es: seq<Event>, i: nat, j: nat)
    requires IsRun(ss, es) && i <= j <= |es|
    ensures ss[j].cache.generation == ss[i].cache.generation + BumpCount(ss, es, i, j)
  {
    if i < j {
      GenerationCountsBumps(ss, es, i, j - 1);
      RunStep(ss, es, j - 1);
      hide Next, IsRun, Bumps;
      ClockAdvances(ss[j - 1], es[j - 1], ss[j]);
    }
  }

  /** The program points a computation passes through, carrying what it read. */
  predicate Carries(pc: Pc, t: Tid, k: Key, seen: nat, g: nat) {
    || pc == Compute(k, seen, g) || pc == RefreshCompute(k, seen, g)
    || pc == WantPut(k, Value(seen, g, t)) || pc == InPut(k, Value(seen, g, t))
    || pc == WantRefreshPut(k, Value(seen, g, t)) || pc == InRefreshPut(k, Value(seen, g, t))
    || pc.ReleaseKey? || pc.WantDrop? || pc.InDrop? || pc.Done?
  }

  /** Only the acting thread moves; a thread that is new was queued or has just arrived. */
  lemma OnlyActorMoves(s: State, e: Event, s': State, t: Tid)
    requires Next(s, e, s')
    ensures t in s.threads ==>
              t in s'.threads && s'.threads[t] == if e.Step? && e.tid == t then NextPc(s, t, e.ok) else s.threads[t]
    ensures t !in s.threads && t in s'.threads ==> s'.threads[t].Queued? || IsArrival(s'.threads[t])
  {
    hide NextPc, NextCache, NextPool, Handover, Holds, Wants, IsArrival;
  }

  lemma NextPcCarriesOn(s: State, t: Tid, ok: bool, k: Key, seen: nat, g: nat)
    requires t in s.threads && Carries(s.threads[t], t, k, seen, g)
    ensures Carries(NextPc(s, t, ok), t, k, seen, g)
  {
  }

  lemma CarriesOn(s: State, e: Event, s': State, t: Tid, k: Key, seen: nat, g: nat)
    requires Next(s, e, s') && t in s.threads && Carries(s.threads[t], t, k, seen, g)
    ensures t in s'.threads && Carries(s'.threads[t], t, k, seen, g)
  {
    hide *;
    OnlyActorMoves(s, e, s', t);
    if e.Step? && e.tid == t {
      NextPcCarriesOn(s, t, e.ok, k, seen, g);
    }
  }

  lemma {:induction false} CarriesAlong(ss: seq<State>, es: seq<Event>, i: nat, j: nat, t: Tid, k: Key, seen: nat,
                                        g: nat)
    requires IsRun(ss, es) && i <= j < |ss|
    requires t in ss[i].threads && Carries(ss[i].threads[t], t, k, seen, g)
    ensures t in ss[j].threads && Carries(ss[j].threads[t], t, k, seen, g)
  {
    hide *;
    if i < j {
      CarriesAlong(ss, es, i, j - 1, t, k, seen, g);
      RunStep(ss, es, j - 1);
      CarriesOn(ss[j - 1], es[j - 1], ss[j], t, k, seen, g);
    }
  }

  /** The first query of a computation of key k, inline or background. */
  predicate ReadsFor(s: State, e: Event, k: Key) {
    Acts(s, e) && e.ok && (s.threads[e.tid].Begun? || s.threads[e.tid].RefreshBegun?) && s.threads[e.tid].key == k
  }

  lemma ReadIsStep(s: State, e: Event, k: Key)
    requires ReadsFor(s, e, k)
    ensures e.Step?
  {
  }

  /** A computation of key k reads at step i and is put at step j.  The entry it
      stores carries the generation of its read exactly when no invalidation or
      clear fell in between; if none did, then every later hit on that entry that
      is flagged fresh shows data at least as new as the last generation bump. */
  lemma FreshHitIsCurrent(ss: seq<State>, es: seq<Event>, ttl: nat, i: nat, j: nat, m: nat, k: Key)
    requires |ss| == |es| + 1 && IsRun(ss, es) && ss[0] == Init(ttl) && i < j < m < |ss|
    requires ReadsFor(ss[i], es[i], k)
    requires PutsKey(ss[j], es[j], k) && es[j].tid == es[i].tid
    requires k in ss[m].cache.items && ss[m].cache.items[k] == ss[j + 1].cache.items[k]
    ensures ss[m].cache.items[k].value.seen == ss[i].db
    ensures ss[m].cache.items[k].gen == ss[i].cache.generation <==> BumpCount(ss, es, i, j) == 0
    ensures BumpCount(ss, es, i, j) == 0 && Lookup(ss[m].cache, k, ss[m].now).Some?
            && !Lookup(ss[m].cache, k, ss[m].now).value.stale
            ==> ss[m].floor <= ss[m].cache.items[k].value.seen
  {
    hide *;
    ReadIsStep(ss[i], es[i], k);
    var t := es[i].tid;
    RunStep(ss, es, i);
    RunStep(ss, es, j);
    StartReadsNow(ss[i], es[i], ss[i + 1], k);
    CarriesAlong(ss, es, i + 1, j, t, k, ss[i].db, ss[i].cache.generation);
    PutStoresCarried(ss[j], es[j], ss[j + 1], k, ss[i].db, ss[i].cache.generation);
    GenerationCountsBumps(ss, es, i, j);
    InitInv(ttl);
    RunKeepsInv(ss, es, m);
    FreshMeansRecent(ss[m], k);
  }

  // ------------------------------------------------------------------
  // Exactly when a fresh hit is current
  // ------------------------------------------------------------------

  /** The database changed at some step in [i, j). */
  ghost predicate Committed(es: seq<Event>, i: nat, j: nat)
    requires j <= |es|
  {
    exists c | i <= c < j :: es[c].Commit?
  }

  /** Some step b in [i, j) bumps the generation after the database changed in [i, b). */
  ghost predicate Overtaken(ss: seq<State>, es: seq<Event>, i: nat, j: nat)
    requires |ss| == |es| + 1 && j <= |es|
  {
    exists b {:trigger es[b]} | i <= b < j :: Bumps(ss[b], es[b]) && Committed(es, i, b)
  }

  lemma VersionsAdvance(s: State, e: Event, s': State)
    requires Next(s, e, s')
    ensures s'.db == s.db + if e.Commit? then 1 else 0
    ensures s'.floor == if Bumps(s, e) then s.db else s.floor
    ensures e.Commit? ==> !Bumps(s, e)
  {
    hide NextPc, NextCache, NextPool, Handover, Holds, Wants, IsArrival;
  }

  lemma {:induction false} CommitsCount(ss: seq<State>, es: seq<Event>, i: nat, j: nat)
    requires IsRun(ss, es) && i <= j <= |es|
    ensures ss[i].db <= ss[j].db
    ensures ss[i].db < ss[j].db <==> Committed(es, i, j)
  {
    if i < j {
      RunStep(ss, es, j - 1);
      CommitsCount(ss, es, i, j - 1);
      hide Next, IsRun;
      VersionsAdvance(ss[j - 1], es[j - 1], ss[j]);
      if es[j - 1].Commit? {
        assert Committed(es, i, j);
      }
    }
  }

  /** The floor passes what was read at i exactly when a commit and then a bump fell in between. */
  lemma {:induction false} FloorPassesExactly(ss: seq<State>, es: seq<Event>, i: nat, j: nat)
    requires IsRun(ss, es) && i <= j <= |es| && ss[i].floor <= ss[i].db
    ensures ss[i].db < ss[j].floor <==> Overtaken(ss, es, i, j)
  {
    if i < j {
      RunStep(ss, es, j - 1);
      FloorPassesExactly(ss, es, i, j - 1);
      CommitsCount(ss, es, i, j - 1);
      hide Next, IsRun, Bumps;
      VersionsAdvance(ss[j - 1], es[j - 1], ss[j]);
      OvertakenSplits(ss, es, i, j);
      OvertakenByCommit(ss, es, i, j - 1);
    }
  }

  lemma OvertakenSplits(ss: seq<State>, es: seq<Event>, i: nat, j: nat)
    requires |ss| == |es| + 1 && i < j <= |es|
    ensures Overtaken(ss, es, i, j)
       <==> Overtaken(ss, es, i, j - 1) || (Bumps(ss[j - 1], es[j - 1]) && Committed(es, i, j - 1))
  {
    hide Bumps, Committed;
    if Overtaken(ss, es, i, j) {
      var b :| i <= b < j && Bumps(ss[b], es[b]) && Committed(es, i, b);
      assert b < j - 1 ==> Overtaken(ss, es, i, j - 1);
    }
    if Overtaken(ss, es, i, j - 1) {
      var b :| i <= b < j - 1 && Bumps(ss[b], es[b]) && Committed(es, i, b);
      assert Overtaken(ss, es, i, j);
    }
  }

  lemma OvertakenByCommit(ss: seq<State>, es: seq<Event>, i: nat, j: nat)
    requires |ss| == |es| + 1 && i <= j <= |es|
    ensures Overtaken(ss, es, i, j) ==> Committed(es, i, j)
  {
    hide Bumps;
    if Overtaken(ss, es, i, j) {
      var b :| i <= b < j && Bumps(ss[b], es[b]) && Committed(es, i, b);
      var c :| i <= c < b && es[c].Commit?;
      assert Committed(es, i, j);
    }
  }

  /** Without a bump the floor stands still. */
  lemma {:induction false} FloorStands(ss: seq<State>, es: seq<Event>, j: nat, m: nat)
    requires IsRun(ss, es) && j <= m <= |es|
    ensures ss[j].cache.generation <= ss[m].cache.generation
    ensures ss[j].cache.generation == ss[m].cache.generation ==> ss[j].floor == ss[m].floor
  {
    if j < m {
      RunStep(ss, es, m - 1);
      FloorStands(ss, es, j, m - 1);
      hide Next, IsRun, Bumps;
      ClockAdvances(ss[m - 1], es[m - 1], ss[m]);
      VersionsAdvance(ss[m - 1], es[m - 1], ss[m]);
    }
  }

  lemma FreshIsSameGeneration(c: Contents<Value>, k: Key, now: int)
    requires Lookup(c, k, now).Some? && !Lookup(c, k, now).value.stale
    ensures k in c.items && c.items[k].gen == c.generation
  {
  }

  /** A computation of key k reads at step i and is put at step j.  A later hit on that
      entry that is flagged fresh is current, no older than the last invalidation, exactly
      when no invalidation or clear between read and put followed a database change made
      since the read. */
  lemma ReadAndPutDecide(ss: seq<State>, es: seq<Event>, ttl: nat, i: nat, j: nat, m: nat, k: Key)
    requires |ss| == |es| + 1 && IsRun(ss, es) && ss[0] == Init(ttl) && i < j < m < |ss|
    requires ReadsFor(ss[i], es[i], k)
    requires PutsKey(ss[j], es[j], k) && es[j].tid == es[i].tid
    requires k in ss[m].cache.items && ss[m].cache.items[k] == ss[j + 1].cache.items[k]
    requires Lookup(ss[m].cache, k, ss[m].now).Some? && !Lookup(ss[m].cache, k, ss[m].now).value.stale
    ensures ss[m].cache.items[k].value.seen == ss[i].db
    ensures ss[m].floor <= ss[m].cache.items[k].value.seen <==> !Overtaken(ss, es, i, j)
  {
    hide *;
    ReadIsStep(ss[i], es[i], k);
    var t := es[i].tid;
    FreshIsSameGeneration(ss[m].cache, k, ss[m].now);
    RunStep(ss, es, i);
    RunStep(ss, es, j);
    StartReadsNow(ss[i], es[i], ss[i + 1], k);
    CarriesAlong(ss, es, i + 1, j, t, k, ss[i].db, ss[i].cache.generation);
    PutStoresCarried(ss[j], es[j], ss[j + 1], k, ss[i].db, ss[i].cache.generation);
    InitInv(ttl);
    RunKeepsInv(ss, es, i);
    FloorIsPast(ss[i]);
    FloorPassesExactly(ss, es, i, j);
    FloorStands(ss, es, j, m);
  }

  lemma EntryComesFrom(s: State, e: Event, s': State, k: Key)
    requires Next(s, e, s') && k in s'.cache.items && !PutsKey(s, e, k)
    ensures k in s.cache.items && s.cache.items[k] == s'.cache.items[k]
  {
    ClockAndCache(s, e, s');
    hide Next;
  }

  /** Every entry was put by an earlier step. */
  lemma {:induction false} EntryWasPut(ss: seq<State>, es: seq<Event>, ttl: nat, m: nat, k: Key) returns (j: nat)
    requires |ss| == |es| + 1 && IsRun(ss, es) && ss[0] == Init(ttl) && m < |ss| && k in ss[m].cache.items
    ensures j < m && PutsKey(ss[j], es[j], k) && k in ss[j + 1].cache.items
    ensures ss[m].cache.items[k] == ss[j + 1].cache.items[k]
    decreases m
  {
    hide *;
    NothingCached(ss[0], ttl);
    RunStep(ss, es, m - 1);
    if PutsKey(ss[m - 1], es[m - 1], k) {
      j := m - 1;
    } else {
      EntryComesFrom(ss[m - 1], es[m - 1], ss[m], k);
      j := EntryWasPut(ss, es, ttl, m - 1, k);
    }
  }

  lemma NothingCached(s: State, ttl: nat)
    requires s == Init(ttl)
    ensures s.cache.items == map[] && s.threads == map[]
  {
  }

  /** Thread point pc carries what a computation of k read. */
  predicate Carrying(pc: Pc, k: Key) {
    (pc.Compute? || pc.WantPut? || pc.InPut? || pc.RefreshCompute? || pc.WantRefreshPut? || pc.InRefreshPut?)
    && pc.key == k
  }

  lemma NextPcCarrying(s: State, t: Tid, ok: bool, job: Tid, k: Key)
    requires t in s.threads && Carrying(NextPc(s, t, ok), k)
    ensures Carrying(s.threads[t], k) || ReadsFor(s, Step(t, ok, job), k)
  {
    hide Lookup;
  }

  lemma NewcomersCarryNothing(pc: Pc, k: Key)
    requires pc.Queued? || IsArrival(pc)
    ensures !Carrying(pc, k)
  {
  }

  lemma CarryingComesFrom(s: State, e: Event, s': State, t: Tid, k: Key)
    requires Next(s, e, s') && t in s'.threads && Carrying(s'.threads[t], k)
    ensures (t in s.threads && Carrying(s.threads[t], k)) || (e.Step? && e.tid == t && ReadsFor(s, e, k))
  {
    hide *;
    OnlyActorMoves(s, e, s', t);
    if t !in s.threads {
      NewcomersCarryNothing(s'.threads[t], k);
    } else if e.Step? && e.tid == t {
      NextPcCarrying(s, t, e.ok, e.job, k);
    }
  }

  /** Whatever a thread carries it read at an earlier step. */
  lemma {:induction false} CarriedWasRead(ss: seq<State>, es: seq<Event>, ttl: nat, j: nat, t: Tid,
                                          k: Key) returns (i: nat)
    requires |ss| == |es| + 1 && IsRun(ss, es) && ss[0] == Init(ttl) && j < |ss|
    requires t in ss[j].threads && Carrying(ss[j].threads[t], k)
    ensures i < j && ReadsFor(ss[i], es[i], k) && es[i].tid == t
    decreases j
  {
    hide *;
    NothingCached(ss[0], ttl);
    RunStep(ss, es, j - 1);
    CarryingComesFrom(ss[j - 1], es[j - 1], ss[j], t, k);
    if t in ss[j - 1].threads && Carrying(ss[j - 1].threads[t], k) {
      i := CarriedWasRead(ss, es, ttl, j - 1, t, k);
    } else {
      i := j - 1;
    }
  }

  lemma PutIsCarrying(s: State, e: Event, k: Key)
    requires PutsKey(s, e, k)
    ensures e.Step? && e.tid in s.threads && Carrying(s.threads[e.tid], k)
  {
  }

  /** In every run, every hit flagged fresh was read at some step i and put at some step j
      by one thread, and it is as new as the last invalidation exactly when no invalidation
      or clear in [i, j) followed a database change made in [i, j). */
  lemma FreshHitIsCurrentExactly(ss: seq<State>, es: seq<Event>, ttl: nat, m: nat, k: Key) returns (i: nat, j: nat)
    requires |ss| == |es| + 1 && IsRun(ss, es) && ss[0] == Init(ttl) && m < |ss|
    requires Lookup(ss[m].cache, k, ss[m].now).Some? && !Lookup(ss[m].cache, k, ss[m].now).value.stale
    ensures i < j < m && ReadsFor(ss[i], es[i], k) && PutsKey(ss[j], es[j], k) && es[j].tid == es[i].tid
    ensures k in ss[m].cache.items && k in ss[j + 1].cache.items
    ensures ss[m].cache.items[k] == ss[j + 1].cache.items[k] && ss[m].cache.items[k].value.seen == ss[i].db
    ensures ss[m].floor <= ss[m].cache.items[k].value.seen <==> !Overtaken(ss, es, i, j)
  {
    FreshIsSameGeneration(ss[m].cache, k, ss[m].now);
    hide *;
    j := EntryWasPut(ss, es, ttl, m, k);
    PutIsCarrying(ss[j], es[j], k);
    i := CarriedWasRead(ss, es, ttl, j, es[j].tid, k);
    ReadAndPutDecide(ss, es, ttl, i, j, m, k);
  }

  lemma FloorIsPast(s: State)
    requires Inv(s)
    ensures s.floor <= s.db
  {
  }

  // ------------------------------------------------------------------
  // What a request sees, by the calls before it
  // ------------------------------------------------------------------

  /** The store call a step makes, if any. */
  function CallOf(s: State, e: Event): seq<Op<Value>> {
    if !Acts(s, e) then []
    else match s.threads[e.tid]
      case InGuard(k) => [Get(k, s.now)]
      case InRecheck(k) => [Get(k, s.now)]
      case InPut(k, v) => [Op.Put(k, v, s.now)]
      case InRefreshPut(k, v) => [Op.Put(k, v, s.now)]
      case InInvalidate => [Op.Invalidate]
      case InClear => [Op.Clear]
      case _ => []
  }

  function Calls(ss: seq<State>, es: seq<Event>, i: nat): seq<Op<Value>>
    requires |ss| == |es| + 1 && i <= |es|
  {
    if i == 0 then [] else Calls(ss, es, i - 1) + CallOf(ss[i - 1], es[i - 1])
  }

  lemma StepMakesCall(s: State, e: Event, s': State)
    requires Next(s, e, s')
    ensures s'.cache == if CallOf(s, e) == [] then s.cache else Perform(s.cache, CallOf(s, e)[0])
  {
  }

  /** In every interleaving a lookup is answered by the store calls made before it: the
      value last put since the last clear, within its TTL, flagged stale exactly when an
      invalidation followed that put. */
  lemma {:induction false} LookupsFollowCalls(ss: seq<State>, es: seq<Event>, ttl: nat, i: nat, k: Key)
    requires |ss| == |es| + 1 && IsRun(ss, es) && ss[0] == Init(ttl) && i <= |es|
    ensures Follows(ss[i].cache, Calls(ss, es, i)) && ss[i].cache.ttl == ttl
    ensures Lookup(ss[i].cache, k, ss[i].now) == Answer(Calls(ss, es, i), ttl, k, ss[i].now)
  {
    hide *;
    if i == 0 {
      NoCallsYet(ss, es, ttl);
    } else {
      LookupsFollowCalls(ss, es, ttl, i - 1, k);
      RunStep(ss, es, i - 1);
      CallsStep(ss, es, i);
      StepFollows(ss[i - 1], es[i - 1], ss[i], Calls(ss, es, i - 1));
      ClockAdvances(ss[i - 1], es[i - 1], ss[i]);
    }
    LookupAnswers(ss[i].cache, Calls(ss, es, i), k, ss[i].now);
  }

  lemma NoCallsYet(ss: seq<State>, es: seq<Event>, ttl: nat)
    requires |ss| == |es| + 1 && ss[0] == Init(ttl)
    ensures Follows(ss[0].cache, Calls(ss, es, 0)) && ss[0].cache.ttl == ttl
  {
  }

  lemma CallsStep(ss: seq<State>, es: seq<Event>, i: nat)
    requires |ss| == |es| + 1 && 0 < i <= |es|
    ensures Calls(ss, es, i) == Calls(ss, es, i - 1) + CallOf(ss[i - 1], es[i - 1])
  {
  }

  lemma StepFollows(s: State, e: Event, s': State, calls: seq<Op<Value>>)
    requires Next(s, e, s') && Follows(s.cache, calls)
    ensures Follows(s'.cache, calls + CallOf(s, e))
  {
    StepMakesCall(s, e, s');
    OneCall(s, e);
    hide *;
    if CallOf(s, e) == [] {
      assert calls + [] == calls;
    } else {
      PerformFollows(s.cache, calls, CallOf(s, e)[0]);
      assert CallOf(s, e) == [CallOf(s, e)[0]];
    }
  }

  lemma OneCall(s: State, e: Event)
    ensures |CallOf(s, e)| <= 1
  {
  }

  lemma StartReadsNow(s: State, e: Event, s': State, k: Key)
    requires Next(s, e, s') && ReadsFor(s, e, k)
    ensures e.tid in s'.threads && Carries(s'.threads[e.tid], e.tid, k, s.db, s.cache.generation)
  {
  }

  lemma PutStoresCarried(s: State, e: Event, s': State, k: Key, seen: nat, g: nat)
    requires Next(s, e, s') && PutsKey(s, e, k) && Carries(s.threads[e.tid], e.tid, k, seen, g)
    ensures k in s'.cache.items && s'.cache.items[k].gen == s.cache.generation
    ensures s'.cache.items[k].value.seen == seen && s'.cache.items[k].value.startGen == g
  {
  }

  lemma FreshMeansRecent(s: State, k: Key)
    requires Inv(s) && k in s.cache.items
    ensures s.cache.items[k].value.startGen == s.cache.items[k].gen
            && Lookup(s.cache, k, s.now).Some? && !Lookup(s.cache, k, s.now).value.stale
            ==> s.floor <= s.cache.items[k].value.seen
  {
  }

  // ------------------------------------------------------------------
  // Why the proviso is needed: `put` stamps the generation at store time
  // ------------------------------------------------------------------

  /** A cold request (thread 0) computes while the data changes and is invalidated (thread 1). */
  function OverlapPc(n: nat): Pc {
    var k := "k";
    if n <= 1 then WantGuard(k)
    else if n == 2 then InGuard(k)
    else if n == 3 then WantLockTable(k)
    else if n == 4 then InLockTable(k)
    else if n == 5 then WantKey(k)
    else if n == 6 then WantRecheck(k)
    else if n == 7 then InRecheck(k)
    else if n == 8 then Begun(k)
    else if n <= 13 then Compute(k, 0, 0)
    else if n == 14 then WantPut(k, Value(0, 0, 0))
    else if n == 15 then InPut(k, Value(0, 0, 0))
    else ReleaseKey(k, Some(Value(0, 0, 0)))
  }

  /** Ownership when only thread 0 holds anything. */
  function Own(pc: Pc): map<Resource, Tid> {
    map r | r in Holds(pc) :: 0
  }

  function OverlapThreads(n: nat): map<Tid, Pc> {
    if n == 0 then map[]
    else if n <= 10 then map[0 := OverlapPc(n)]
    else map[0 := OverlapPc(n),
             1 := if n == 11 then WantInvalidate else if n == 12 then InInvalidate else Done(None)]
  }

  function OverlapState(n: nat): State {
    State(0, if n <= 9 then 0 else 1, if n <= 12 then 0 else 1,
          Contents(60,
                   if n <= 15 then map[] else map["k" := Entry(Value(0, 0, 0), 0, 1)],
                   if n <= 12 then 0 else 1),
          if n <= 4 then {} else {"k"},
          if n == 12 then Own(OverlapPc(n))[Guard := 1] else Own(OverlapPc(n)),
          OverlapThreads(n), {})
  }

  function OverlapEvent(n: nat): Event {
    if n == 0 then Arrive(0, WantGuard("k"))
    else if n == 9 then Commit
    else if n == 10 then Arrive(1, WantInvalidate)
    else if n == 11 || n == 12 then Step(1, true, 0)
    else Step(0, true, 0)
  }

  lemma Independent(pc: Pc)
    ensures Wants(pc) !! Holds(pc)
  {
  }

  /** A step of thread 0 while no other thread holds anything. */
  lemma SoloStep(s: State, from: Pc, to: Pc)
    requires 0 in s.threads && s.threads[0] == from && s.owner == Own(from) && to == NextPc(s, 0, true)
    requires !from.Done? && !to.Done? && !InQueue(from) && !from.Submit? && !from.InInvalidate? && !from.InClear?
    ensures Next(s, Step(0, true, 0),
                 s.(cache := NextCache(s, from), owner := Own(to), threads := s.threads[0 := to],
                    lockTable := if from.InLockTable? then s.lockTable + {from.key} else s.lockTable))
  {
    hide NextPc, NextCache;
    Independent(from);
    assert Handover(s.owner, Holds(from), Holds(to), 0) == Own(to);
  }

  lemma InvalidationBegins(s: State, t: Tid)
    requires t in s.threads && s.threads[t] == WantInvalidate && Guard !in s.owner
    ensures Next(s, Step(t, true, 0), s.(owner := s.owner[Guard := t], threads := s.threads[t := InInvalidate]))
  {
    assert NextPc(s, t, true) == InInvalidate && NextCache(s, WantInvalidate) == s.cache;
    assert Wants(WantInvalidate) == Holds(InInvalidate) == {Guard} && Holds(WantInvalidate) == {};
    hide NextPc, NextCache, Wants, Holds;
    assert Handover(s.owner, {}, {Guard}, t) == s.owner[Guard := t];
  }

  lemma InvalidationEnds(s: State, t: Tid)
    requires t in s.threads && t !in s.pool && s.threads[t] == InInvalidate
    ensures Next(s, Step(t, true, 0), s.(owner := s.owner - {Guard}, threads := s.threads[t := Done(None)],
                                         cache := Invalidated(s.cache), floor := s.db))
  {
    assert NextPc(s, t, true) == Done(None) && NextCache(s, InInvalidate) == Invalidated(s.cache);
    hide NextPc, NextCache, Invalidated;
    assert Handover(s.owner, {Guard}, {}, t) == s.owner - {Guard};
  }

  lemma OverlapOther(n: nat)
    requires n == 0 || 9 <= n < 13
    ensures Next(OverlapState(n), OverlapEvent(n), OverlapState(n + 1))
  {
    if n == 11 {
      OverlapBegins(n);
    } else if n == 12 {
      OverlapEnds(n);
    } else {
      hide ThreadStep, CanStep, NextPc, NextCache, Own;
    }
  }

  lemma OverlapBegins(n: nat)
    requires n == 11
    ensures Next(OverlapState(n), OverlapEvent(n), OverlapState(n + 1))
  {
    hide Next;
    InvalidationBegins(OverlapState(n), 1);
    assert OverlapThreads(n)[1 := InInvalidate] == OverlapThreads(n + 1);
  }

  lemma OverlapEnds(n: nat)
    requires n == 12
    ensures Next(OverlapState(n), OverlapEvent(n), OverlapState(n + 1))
  {
    hide Next;
    InvalidationEnds(OverlapState(n), 1);
    var s, s' := OverlapState(n), OverlapState(n + 1);
    assert s'.owner == s.owner - {Guard};
    assert s'.threads == s.threads[1 := Done(None)];
    assert s'.cache == Invalidated(s.cache);
    assert s' == s.(owner := s'.owner, threads := s'.threads, cache := s'.cache, floor := s.db);
  }

  lemma OverlapPcs(n: nat)
    requires 1 <= n < 9 || 13 <= n < 16
    ensures var s, from, to := OverlapState(n), OverlapPc(n), OverlapPc(n + 1);
      && 0 in s.threads && s.threads[0] == from && s.owner == Own(from) && to == NextPc(s, 0, true)
      && !from.Done? && !to.Done? && !InQueue(from) && !from.Submit? && !from.InInvalidate? && !from.InClear?
  {
    hide Own;
  }

  lemma OverlapStates(n: nat)
    requires 1 <= n < 9 || 13 <= n < 16
    ensures var s, from, to := OverlapState(n), OverlapPc(n), OverlapPc(n + 1);
            OverlapState(n + 1)
            == s.(cache := NextCache(s, from), owner := Own(to), threads := s.threads[0 := to],
                  lockTable := if from.InLockTable? then s.lockTable + {from.key} else s.lockTable)
    ensures OverlapEvent(n) == Step(0, true, 0)
  {
    hide Own;
    assert OverlapThreads(n)[0 := OverlapPc(n + 1)] == OverlapThreads(n + 1);
    var s, s' := OverlapState(n), OverlapState(n + 1);
    assert NextCache(s, OverlapPc(n)) == s'.cache;
    assert s'.lockTable == if n == 4 then s.lockTable + {"k"} else s.lockTable;
    assert OverlapPc(n).InLockTable? ==> n == 4;
  }

  lemma OverlapSolo(n: nat)
    requires 1 <= n < 9 || 13 <= n < 16
    ensures Next(OverlapState(n), OverlapEvent(n), OverlapState(n + 1))
  {
    hide *;
    OverlapPcs(n);
    SoloStep(OverlapState(n), OverlapPc(n), OverlapPc(n + 1));
    OverlapStates(n);
  }

  /** There is a run whose last state serves, as fresh, data older than the last invalidation. */
  lemma FreshFlagCanLie() returns (ss: seq<State>, es: seq<Event>)
    ensures IsRun(ss, es) && ss[0] == Init(60)
    ensures var s := ss[|ss| - 1];
            Lookup(s.cache, "k", s.now) == Some(Hit(Value(0, 0, 0), false)) && s.floor == 1
  {
    ss, es := seq(17, (n: nat) => OverlapState(n)), seq(16, (n: nat) => OverlapEvent(n));
    forall i | 0 <= i < |es|
      ensures Next(ss[i], es[i], ss[i + 1])
    {
      hide *;
      if i == 0 || 9 <= i < 13 { OverlapOther(i); } else { OverlapSolo(i); }
    }
  }
}
