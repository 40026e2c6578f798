/** What a thread of the response cache does between its arrival and its end, step by step
    and in order, in every interleaving (backend/cache.py:134-246): a request, a bypass, a
    background refresh, an invalidation or a clear runs the code of that call and no other. */
module ThreadTraces {
  import opened Wrappers
  import opened TtlCache
  import opened ResponseCache

  // ------------------------------------------------------------------
  // Notes of a run
  // ------------------------------------------------------------------

  datatype Note =
    | Looked(key: Key, answer: Option<Hit<Value>>)
    | Marked(key: Key, already: bool)    // found or made the key's refresh mark
    | Enqueued(key: Key, job: Tid)
    | Read(seen: nat, startGen: nat)
    | Raised
    | Wrote(key: Key, value: Value)
    | Unmarked(key: Key)
    | Staled
    | Emptied

  /** What the acting thread's step does to, or learns from, what the threads share. */
  function NoteOf(s: State, e: ResponseCache.Event): seq<Note>
    requires e.Step? && e.tid in s.threads
  {
    match s.threads[e.tid]
    case InGuard(k) => [Looked(k, Lookup(s.cache, k, s.now))]
    case InRecheck(k) => [Looked(k, Lookup(s.cache, k, s.now))]
    case InSlot(k, _) => [Marked(k, RefreshSlot(k) in s.owner)]
    case Submit(k, _) => [Enqueued(k, e.job)]
    case Begun(_) => [if e.ok then Read(s.db, s.cache.generation) else Raised]
    case RefreshBegun(_) => [if e.ok then Read(s.db, s.cache.generation) else Raised]
    case Bypass => [if e.ok then Read(s.db, s.cache.generation) else Raised]
    case Compute(_, _, _) => if e.ok then [] else [Raised]
    case RefreshCompute(_, _, _) => if e.ok then [] else [Raised]
    case InPut(k, v) => [Wrote(k, v)]
    case InRefreshPut(k, v) => [Wrote(k, v)]
    case InDrop(k) => [Unmarked(k)]
    case InInvalidate => [Staled]
    case InClear => [Emptied]
    case _ => []
  }

  predicate ActsAs(s: State, e: ResponseCache.Event, t: Tid) {
    e.Step? && e.tid == t && t in s.threads
  }

  /** What thread t did from state i to state n. */
  function Log(ss: seq<State>, es: seq<ResponseCache.Event>, t: Tid, i: nat, n: nat): seq<Note>
    requires |ss| == |es| + 1 && i <= n <= |es|
  {
    if n == i then []
    else
      Log(ss, es, t, i, n - 1)
      + if ActsAs(ss[n - 1], es[n - 1], t) then NoteOf(ss[n - 1], es[n - 1]) else []
  }

  // ------------------------------------------------------------------
  // The code of each call
  // ------------------------------------------------------------------

  /** The endpoint ran: it raised before its first query or after, or its result was put
      under the key. */
  predicate ComputeTrace(t: Tid, k: Key, log: seq<Note>) {
    || log == [Raised]
    || (&& |log| == 2 && log[0].Read?
        && (log[1] == Raised || log[1] == Wrote(k, Value(log[0].seen, log[0].startGen, t))))
  }

  /** A lookup decides: a fresh hit is returned; a stale one too, after finding the refresh
      mark or setting it and enqueueing a job; a miss is looked up again under the key's
      lock, and only a second miss computes. */
  predicate RequestTrace(t: Tid, k: Key, log: seq<Note>, result: Option<Value>) {
    && log != [] && log[0].Looked? && log[0].key == k
    && match log[0].answer
       case Some(hit) => result == Some(hit.value) && (if hit.stale then MarkTrace(k, log[1..]) else |log| == 1)
       case None => MissTrace(t, k, log[1..], result)
  }

  predicate MarkTrace(k: Key, log: seq<Note>) {
    || log == [Marked(k, true)]
    || (|log| == 2 && log[0] == Marked(k, false) && log[1].Enqueued? && log[1].key == k)
  }

  predicate MissTrace(t: Tid, k: Key, log: seq<Note>, result: Option<Value>) {
    && log != [] && log[0].Looked? && log[0].key == k
    && match log[0].answer
       case Some(hit) => result == Some(hit.value) && |log| == 1
       case None => ComputeTrace(t, k, log[1..]) && result == Outcome(log)
  }

  /** The value written last, if the call ended by writing. */
  function Outcome(log: seq<Note>): Option<Value> {
    if log != [] && log[|log| - 1].Wrote? then Some(log[|log| - 1].value) else None
  }

  predicate RefreshTrace(t: Tid, k: Key, log: seq<Note>) {
    log != [] && log[|log| - 1] == Unmarked(k) && ComputeTrace(t, k, log[..|log| - 1])
  }

  predicate BypassTrace(t: Tid, log: seq<Note>, result: Option<Value>) {
    || (log == [Raised] && result == None)
    || (|log| == 1 && log[0].Read? && result == Some(Value(log[0].seen, log[0].startGen, t)))
  }

  // ------------------------------------------------------------------
  // Where a thread is in its code
  // ------------------------------------------------------------------

  /** At point pc a request for k has done exactly this. */
  predicate RequestAt(t: Tid, k: Key, pc: Pc, log: seq<Note>) {
    match pc
    case QueuedWarm(x) => x == k && log == []
    case WantGuard(x) => x == k && log == []
    case InGuard(x) => x == k && log == []
    case WantSlot(x, v) => x == k && log == [Looked(k, Some(Hit(v, true)))]
    case InSlot(x, v) => x == k && log == [Looked(k, Some(Hit(v, true)))]
    case Submit(x, v) => x == k && log == [Looked(k, Some(Hit(v, true))), Marked(k, false)]
    case WantLockTable(x) => x == k && log == [Looked(k, None)]
    case InLockTable(x) => x == k && log == [Looked(k, None)]
    case WantKey(x) => x == k && log == [Looked(k, None)]
    case WantRecheck(x) => x == k && log == [Looked(k, None)]
    case InRecheck(x) => x == k && log == [Looked(k, None)]
    case Begun(x) => x == k && log == [Looked(k, None), Looked(k, None)]
    case Compute(x, seen, g) => x == k && log == [Looked(k, None), Looked(k, None), Read(seen, g)]
    case WantPut(x, v) => x == k && v.author == t && log == [Looked(k, None), Looked(k, None), Read(v.seen, v.startGen)]
    case InPut(x, v) => x == k && v.author == t && log == [Looked(k, None), Looked(k, None), Read(v.seen, v.startGen)]
    case ReleaseKey(x, r) => x == k && RequestTrace(t, k, log, r)
    case Done(r) => RequestTrace(t, k, log, r)
    case _ => false
  }

  predicate RefreshAt(t: Tid, k: Key, pc: Pc, log: seq<Note>) {
    match pc
    case Queued(x) => x == k && log == []
    case RefreshBegun(x) => x == k && log == []
    case RefreshCompute(x, seen, g) => x == k && log == [Read(seen, g)]
    case WantRefreshPut(x, v) => x == k && v.author == t && log == [Read(v.seen, v.startGen)]
    case InRefreshPut(x, v) => x == k && v.author == t && log == [Read(v.seen, v.startGen)]
    case WantDrop(x) => x == k && ComputeTrace(t, k, log)
    case InDrop(x) => x == k && ComputeTrace(t, k, log)
    case Done(r) => r == None && RefreshTrace(t, k, log)
    case _ => false
  }

  predicate BypassAt(t: Tid, pc: Pc, log: seq<Note>) {
    (pc.Bypass? && log == []) || (pc.Done? && BypassTrace(t, log, pc.result))
  }

  predicate InvalidateAt(pc: Pc, log: seq<Note>) {
    ((pc.WantInvalidate? || pc.InInvalidate?) && log == []) || (pc == Done(None) && log == [Staled])
  }

  predicate ClearAt(pc: Pc, log: seq<Note>) {
    ((pc.WantClear? || pc.InClear?) && log == []) || (pc == Done(None) && log == [Emptied])
  }

  /** A thread that began as `start` and is at pc has done exactly this. */
  predicate Runs(start: Pc, t: Tid, pc: Pc, log: seq<Note>) {
    match start
    case WantGuard(k) => RequestAt(t, k, pc, log)
    case QueuedWarm(k) => RequestAt(t, k, pc, log)
    case InGuard(k) => RequestAt(t, k, pc, log)
    case Queued(k) => RefreshAt(t, k, pc, log)
    case Bypass => BypassAt(t, pc, log)
    case WantInvalidate => InvalidateAt(pc, log)
    case WantClear => ClearAt(pc, log)
    case _ => false
  }

  // ------------------------------------------------------------------
  // One step
  // ------------------------------------------------------------------

  predicate Looking(pc: Pc) {
    pc.InGuard? || pc.InSlot? || pc.Submit? || pc.InRecheck?
  }

  lemma LookGoesOn(s: State, t: Tid, k: Key, ok: bool, job: Tid, log: seq<Note>)
    requires t in s.threads && s.threads[t].InGuard? && RequestAt(t, k, s.threads[t], log)
    ensures RequestAt(t, k, NextPc(s, t, ok), log + NoteOf(s, Step(t, ok, job)))
  {
    hide Lookup;
    assert log + NoteOf(s, Step(t, ok, job)) == [Looked(k, Lookup(s.cache, k, s.now))];
  }

  lemma RecheckGoesOn(s: State, t: Tid, k: Key, ok: bool, job: Tid, log: seq<Note>)
    requires t in s.threads && s.threads[t].InRecheck? && RequestAt(t, k, s.threads[t], log)
    ensures RequestAt(t, k, NextPc(s, t, ok), log + NoteOf(s, Step(t, ok, job)))
  {
    hide Lookup;
    var after := log + NoteOf(s, Step(t, ok, job));
    assert after == [Looked(k, None), Looked(k, Lookup(s.cache, k, s.now))];
    assert after[1..] == [Looked(k, Lookup(s.cache, k, s.now))];
  }

  lemma MarkGoesOn(s: State, t: Tid, k: Key, ok: bool, job: Tid, log: seq<Note>)
    requires t in s.threads && s.threads[t].InSlot? && RequestAt(t, k, s.threads[t], log)
    ensures RequestAt(t, k, NextPc(s, t, ok), log + NoteOf(s, Step(t, ok, job)))
  {
    var look := Looked(k, Some(Hit(s.threads[t].value, true)));
    var after := log + NoteOf(s, Step(t, ok, job));
    assert after == [look, Marked(k, RefreshSlot(k) in s.owner)];
    assert after[1..] == [Marked(k, RefreshSlot(k) in s.owner)];
  }

  lemma SubmitGoesOn(s: State, t: Tid, k: Key, ok: bool, job: Tid, log: seq<Note>)
    requires t in s.threads && s.threads[t].Submit? && RequestAt(t, k, s.threads[t], log)
    ensures RequestAt(t, k, NextPc(s, t, ok), log + NoteOf(s, Step(t, ok, job)))
  {
    var look := Looked(k, Some(Hit(s.threads[t].value, true)));
    var after := log + NoteOf(s, Step(t, ok, job));
    assert after == [look, Marked(k, false), Enqueued(k, job)];
    assert after[1..] == [Marked(k, false), Enqueued(k, job)];
  }

  predicate Working(pc: Pc) {
    pc.Begun? || pc.Compute? || pc.InPut?
  }

  lemma WorkingGoesOn(s: State, t: Tid, k: Key, ok: bool, job: Tid, log: seq<Note>)
    requires t in s.threads && Working(s.threads[t]) && RequestAt(t, k, s.threads[t], log)
    ensures RequestAt(t, k, NextPc(s, t, ok), log + NoteOf(s, Step(t, ok, job)))
  {
    var note := NoteOf(s, Step(t, ok, job));
    var miss := Looked(k, None);
    if s.threads[t].Compute? && ok {
      assert log + [] == log;
    } else if s.threads[t].Begun? && ok {
      assert log + note == [miss, miss, Read(s.db, s.cache.generation)];
    } else {
      Missed(t, k, log, note);
    }
  }

  /** A computation after two misses ends the request. */
  lemma Missed(t: Tid, k: Key, log: seq<Note>, note: seq<Note>)
    requires 2 <= |log| && log[0] == Looked(k, None) && log[1] == Looked(k, None) && |note| == 1
    requires ComputeTrace(t, k, log[2..] + note)
    ensures RequestTrace(t, k, log + note, Outcome(note))
  {
    assert (log + note)[1..][1..] == log[2..] + note;
    hide ComputeTrace;
  }

  lemma WaitingGoesOn(s: State, t: Tid, k: Key, ok: bool, job: Tid, log: seq<Note>)
    requires t in s.threads && !Looking(s.threads[t]) && !Working(s.threads[t]) && RequestAt(t, k, s.threads[t], log)
    ensures RequestAt(t, k, NextPc(s, t, ok), log + NoteOf(s, Step(t, ok, job)))
  {
    hide RequestTrace, Lookup;
    assert log + [] == log;
  }

  lemma RefreshComputes(s: State, t: Tid, k: Key, ok: bool, job: Tid, log: seq<Note>)
    requires t in s.threads && RefreshAt(t, k, s.threads[t], log)
    requires s.threads[t].RefreshBegun? || s.threads[t].RefreshCompute?
    ensures RefreshAt(t, k, NextPc(s, t, ok), log + NoteOf(s, Step(t, ok, job)))
  {
    var note := NoteOf(s, Step(t, ok, job));
    if s.threads[t].RefreshBegun? {
      assert log + note == note;
    } else if ok {
      assert log + note == log;
    }
  }

  lemma RefreshWrites(s: State, t: Tid, k: Key, ok: bool, job: Tid, log: seq<Note>)
    requires t in s.threads && RefreshAt(t, k, s.threads[t], log)
    requires s.threads[t].InRefreshPut?
    ensures RefreshAt(t, k, NextPc(s, t, ok), log + NoteOf(s, Step(t, ok, job)))
  {
    var v := s.threads[t].value;
    assert log + NoteOf(s, Step(t, ok, job)) == [Read(v.seen, v.startGen), Wrote(k, v)];
    assert v == Value(v.seen, v.startGen, t);
  }

  lemma RefreshDrops(s: State, t: Tid, k: Key, ok: bool, job: Tid, log: seq<Note>)
    requires t in s.threads && RefreshAt(t, k, s.threads[t], log)
    requires s.threads[t].InDrop?
    ensures RefreshAt(t, k, NextPc(s, t, ok), log + NoteOf(s, Step(t, ok, job)))
  {
    hide ComputeTrace;
    assert (log + [Unmarked(k)])[..|log|] == log;
  }

  lemma RefreshWaits(s: State, t: Tid, k: Key, ok: bool, job: Tid, log: seq<Note>)
    requires t in s.threads && RefreshAt(t, k, s.threads[t], log)
    requires s.threads[t].Queued? || s.threads[t].WantRefreshPut? || s.threads[t].WantDrop?
    ensures RefreshAt(t, k, NextPc(s, t, ok), log + NoteOf(s, Step(t, ok, job)))
  {
    hide ComputeTrace;
    assert log + [] == log;
  }

  predicate InRefresh(pc: Pc) {
    || pc.RefreshBegun? || pc.RefreshCompute? || pc.InRefreshPut? || pc.InDrop?
    || pc.Queued? || pc.WantRefreshPut? || pc.WantDrop?
  }

  lemma RefreshPoints(t: Tid, k: Key, pc: Pc, log: seq<Note>)
    requires RefreshAt(t, k, pc, log) && !pc.Done?
    ensures InRefresh(pc)
  {
    hide ComputeTrace;
  }

  lemma RefreshGoesOn(s: State, t: Tid, k: Key, ok: bool, job: Tid, log: seq<Note>)
    requires t in s.threads && !s.threads[t].Done? && RefreshAt(t, k, s.threads[t], log)
    ensures RefreshAt(t, k, NextPc(s, t, ok), log + NoteOf(s, Step(t, ok, job)))
  {
    hide RefreshAt, NextPc, NoteOf;
    RefreshPoints(t, k, s.threads[t], log);
    if s.threads[t].InDrop? {
      RefreshDrops(s, t, k, ok, job, log);
    } else if s.threads[t].InRefreshPut? {
      RefreshWrites(s, t, k, ok, job, log);
    } else if s.threads[t].RefreshBegun? || s.threads[t].RefreshCompute? {
      RefreshComputes(s, t, k, ok, job, log);
    } else {
      RefreshWaits(s, t, k, ok, job, log);
    }
  }

  lemma OthersGoOn(s: State, t: Tid, start: Pc, ok: bool, job: Tid, log: seq<Note>)
    requires t in s.threads && !s.threads[t].Done? && Runs(start, t, s.threads[t], log)
    requires start.Bypass? || start.WantInvalidate? || start.WantClear?
    ensures Runs(start, t, NextPc(s, t, ok), log + NoteOf(s, Step(t, ok, job)))
  {
    hide Lookup;
    assert log + [] == log;
  }

  lemma StepGoesOn(s: State, t: Tid, start: Pc, ok: bool, job: Tid, log: seq<Note>)
    requires t in s.threads && !s.threads[t].Done? && Runs(start, t, s.threads[t], log)
    ensures Runs(start, t, NextPc(s, t, ok), log + NoteOf(s, Step(t, ok, job)))
  {
    hide NextPc, NoteOf, RequestAt, RefreshAt, BypassAt, InvalidateAt, ClearAt, Looking, Working;
    match start
    case WantGuard(k) => RequestGoesOn(s, t, k, ok, job, log);
    case QueuedWarm(k) => RequestGoesOn(s, t, k, ok, job, log);
    case InGuard(k) => RequestGoesOn(s, t, k, ok, job, log);
    case Queued(k) => RefreshGoesOn(s, t, k, ok, job, log);
    case _ => OthersGoOn(s, t, start, ok, job, log);
  }

  lemma NotLooking(pc: Pc)
    requires !pc.InGuard? && !pc.InRecheck? && !pc.InSlot? && !pc.Submit?
    ensures !Looking(pc)
  {
  }

  lemma RequestGoesOn(s: State, t: Tid, k: Key, ok: bool, job: Tid, log: seq<Note>)
    requires t in s.threads && RequestAt(t, k, s.threads[t], log)
    ensures RequestAt(t, k, NextPc(s, t, ok), log + NoteOf(s, Step(t, ok, job)))
  {
    hide *;
    if s.threads[t].InGuard? {
      LookGoesOn(s, t, k, ok, job, log);
    } else if s.threads[t].InRecheck? {
      RecheckGoesOn(s, t, k, ok, job, log);
    } else if s.threads[t].InSlot? {
      MarkGoesOn(s, t, k, ok, job, log);
    } else if s.threads[t].Submit? {
      SubmitGoesOn(s, t, k, ok, job, log);
    } else if Working(s.threads[t]) {
      WorkingGoesOn(s, t, k, ok, job, log);
    } else {
      NotLooking(s.threads[t]);
      WaitingGoesOn(s, t, k, ok, job, log);
    }
  }

  // ------------------------------------------------------------------
  // Whole runs
  // ------------------------------------------------------------------

  lemma ActorUnfinished(s: State, e: ResponseCache.Event, t: Tid)
    requires Enabled(s, e) && ActsAs(s, e, t)
    ensures !s.threads[t].Done? && e == Step(t, e.ok, e.job)
  {
  }

  /** In every run, whatever the interleaving, a thread has done exactly what the code of
      its call does up to where it is. */
  lemma {:induction false} EveryThreadRunsItsCode(ss: seq<State>, es: seq<ResponseCache.Event>, i: nat, j: nat, t: Tid)
    requires |ss| == |es| + 1 && IsRun(ss, es) && i <= j <= |es| && t in ss[i].threads
    requires Runs(ss[i].threads[t], t, ss[i].threads[t], [])
    ensures t in ss[j].threads && Runs(ss[i].threads[t], t, ss[j].threads[t], Log(ss, es, t, i, j))
    decreases j
  {
    hide *;
    LogAt(ss, es, t, i, j);
    if i < j {
      var s, e := ss[j - 1], es[j - 1];
      EveryThreadRunsItsCode(ss, es, i, j - 1, t);
      RunStep(ss, es, j - 1);
      OnlyActorMoves(s, e, ss[j], t);
      NextIsEnabled(s, e, ss[j]);
      ActsMeans(s, e, t);
      if ActsAs(s, e, t) {
        ActorUnfinished(s, e, t);
        StepGoesOn(s, t, ss[i].threads[t], e.ok, e.job, Log(ss, es, t, i, j - 1));
      }
    }
  }

  lemma LogAt(ss: seq<State>, es: seq<ResponseCache.Event>, t: Tid, i: nat, j: nat)
    requires |ss| == |es| + 1 && i <= j <= |es|
    ensures i == j ==> Log(ss, es, t, i, j) == []
    ensures i < j ==>
      Log(ss, es, t, i, j)
      == Log(ss, es, t, i, j - 1) + if ActsAs(ss[j - 1], es[j - 1], t) then NoteOf(ss[j - 1], es[j - 1]) else []
    ensures i < j && !ActsAs(ss[j - 1], es[j - 1], t) ==> Log(ss, es, t, i, j) == Log(ss, es, t, i, j - 1)
  {
    hide NoteOf, ActsAs;
  }

  lemma NextIsEnabled(s: State, e: ResponseCache.Event, s': State)
    requires Next(s, e, s')
    ensures Enabled(s, e)
  {
    hide Enabled, Apply;
  }

  lemma ActsMeans(s: State, e: ResponseCache.Event, t: Tid)
    ensures ActsAs(s, e, t) <==> e.Step? && e.tid == t && t in s.threads
  {
  }

  /** A note was made by a step of the thread. */
  lemma {:induction false} NoteHappened(ss: seq<State>, es: seq<ResponseCache.Event>, t: Tid, i: nat, j: nat,
                                        x: nat) returns (p: nat)
    requires |ss| == |es| + 1 && i <= j <= |es| && x < |Log(ss, es, t, i, j)|
    ensures i <= p < j && ActsAs(ss[p], es[p], t) && NoteOf(ss[p], es[p]) == [Log(ss, es, t, i, j)[x]]
    ensures |Log(ss, es, t, i, p)| == x
    decreases j
  {
    LogAt(ss, es, t, i, j);
    hide Log;
    var before := Log(ss, es, t, i, j - 1);
    if x < |before| {
      p := NoteHappened(ss, es, t, i, j - 1, x);
    } else {
      OneNote(ss[j - 1], es[j - 1]);
      p := j - 1;
    }
  }

  lemma OneNote(s: State, e: ResponseCache.Event)
    requires e.Step? && e.tid in s.threads
    ensures |NoteOf(s, e)| <= 1
  {
  }

  // ------------------------------------------------------------------
  // What finished calls did
  // ------------------------------------------------------------------

  /** A request that has ended did one of the things its code allows, and returns accordingly. */
  lemma RequestDid(ss: seq<State>, es: seq<ResponseCache.Event>, i: nat, j: nat, t: Tid, k: Key)
    requires |ss| == |es| + 1 && IsRun(ss, es) && i <= j <= |es| && t in ss[i].threads
    requires ss[i].threads[t] == WantGuard(k) || ss[i].threads[t] == QueuedWarm(k) || ss[i].threads[t] == InGuard(k)
    requires t in ss[j].threads && ss[j].threads[t].Done?
    ensures RequestTrace(t, k, Log(ss, es, t, i, j), ss[j].threads[t].result)
  {
    hide IsRun, Log, RequestTrace;
    EveryThreadRunsItsCode(ss, es, i, j, t);
  }

  /** A refresh that has ended put what it had read under its key, or raised, and then took
      its mark back. */
  lemma RefreshDid(ss: seq<State>, es: seq<ResponseCache.Event>, i: nat, j: nat, t: Tid, k: Key)
    requires |ss| == |es| + 1 && IsRun(ss, es) && i <= j <= |es| && t in ss[i].threads
    requires ss[i].threads[t] == Queued(k) && t in ss[j].threads && ss[j].threads[t].Done?
    ensures RefreshTrace(t, k, Log(ss, es, t, i, j)) && ss[j].threads[t].result == None
  {
    hide IsRun, Log, RefreshTrace;
    EveryThreadRunsItsCode(ss, es, i, j, t);
  }

  lemma BypassDid(ss: seq<State>, es: seq<ResponseCache.Event>, i: nat, j: nat, t: Tid)
    requires |ss| == |es| + 1 && IsRun(ss, es) && i <= j <= |es| && t in ss[i].threads
    requires ss[i].threads[t] == Bypass && t in ss[j].threads && ss[j].threads[t].Done?
    ensures BypassTrace(t, Log(ss, es, t, i, j), ss[j].threads[t].result)
  {
    hide IsRun, Log, BypassTrace;
    EveryThreadRunsItsCode(ss, es, i, j, t);
  }

  // ------------------------------------------------------------------
  // A stale hit starts a refresh
  // ------------------------------------------------------------------

  lemma LookupIsNoted(s: State, e: ResponseCache.Event, k: Key)
    requires e.Step? && e.tid in s.threads && s.threads[e.tid] == InGuard(k)
    ensures NoteOf(s, e) == [Looked(k, Lookup(s.cache, k, s.now))]
  {
  }

  lemma MarkIsNoted(s: State, e: ResponseCache.Event, k: Key, already: bool)
    requires e.Step? && e.tid in s.threads && NoteOf(s, e) == [Marked(k, already)]
    ensures s.threads[e.tid].InSlot? && s.threads[e.tid].key == k && (already <==> RefreshSlot(k) in s.owner)
  {
  }

  /** Enqueueing hands the mark, which the thread holds, to a new job. */
  lemma EnqueueMakesJob(s: State, e: ResponseCache.Event, s': State, k: Key, job: Tid)
    requires Next(s, e, s') && Owned(s) && e.Step? && e.tid in s.threads && NoteOf(s, e) == [Enqueued(k, job)]
    ensures RefreshSlot(k) in s.owner && s.owner[RefreshSlot(k)] == e.tid
    ensures job !in s.threads && job in s'.threads && s'.threads[job] == Queued(k)
    ensures RefreshSlot(k) in s'.owner && s'.owner[RefreshSlot(k)] == job
  {
    var t := e.tid;
    assert s.threads[t].Submit? && s.threads[t].key == k && e.job == job;
    assert RefreshSlot(k) in HeldBy(s.threads)[t];
    hide NextPc, NextCache, NextPool, Handover, Wants;
  }

  /** A log from i on begins with what the step at i noted. */
  lemma {:induction false} LogBegins(ss: seq<State>, es: seq<ResponseCache.Event>, t: Tid, i: nat, j: nat)
    requires |ss| == |es| + 1 && i < j <= |es| && ActsAs(ss[i], es[i], t) && |NoteOf(ss[i], es[i])| == 1
    ensures Log(ss, es, t, i, j) != [] && Log(ss, es, t, i, j)[0] == NoteOf(ss[i], es[i])[0]
    decreases j
  {
    LogAt(ss, es, t, i, j);
    LogAt(ss, es, t, i, i);
    hide Log, NoteOf, ActsAs;
    if i < j - 1 {
      LogBegins(ss, es, t, i, j - 1);
    }
  }

  /** Thread t's lookup at step i finds a stale entry.  Once t has ended it has returned that
      value, and in between, at step p under the registry guard, it found the key's refresh
      mark set, or set it and at step q enqueued a job that refreshes the key. */
  lemma StaleHitStartsRefresh(ss: seq<State>, es: seq<ResponseCache.Event>, ttl: nat, i: nat, j: nat, t: Tid, k: Key,
                              value: Value) returns (p: nat, q: nat)
    requires |ss| == |es| + 1 && IsRun(ss, es) && ss[0] == Init(ttl) && i < j <= |es|
    requires ActsAs(ss[i], es[i], t) && ss[i].threads[t] == InGuard(k)
    requires Lookup(ss[i].cache, k, ss[i].now) == Some(Hit(value, true))
    requires t in ss[j].threads && ss[j].threads[t].Done?
    ensures ss[j].threads[t].result == Some(value)
    ensures i < p <= q < j && es[p].Step? && es[p].tid == t
    ensures RefreshSlot(k) in ss[q].owner
    ensures RefreshSlot(k) !in ss[p].owner ==>
      && p < q && es[q].Step? && es[q].tid == t && es[q].job !in ss[q].threads
      && es[q].job in ss[q + 1].threads && ss[q + 1].threads[es[q].job] == Queued(k)
      && RefreshSlot(k) in ss[q + 1].owner && ss[q + 1].owner[RefreshSlot(k)] == es[q].job
  {
    hide *;
    ActsMeans(ss[i], es[i], t);
    LookupIsNoted(ss[i], es[i], k);
    LogBegins(ss, es, t, i, j);
    RequestDid(ss, es, i, j, t, k);
    var log := Log(ss, es, t, i, j);
    StaleTrace(t, k, log, ss[j].threads[t].result, value);
    p := NoteHappened(ss, es, t, i, j, 1);
    ActsMeans(ss[p], es[p], t);
    MarkIsNoted(ss[p], es[p], k, log[1] == Marked(k, true));
    LogAt(ss, es, t, i, i);
    if log[1] == Marked(k, true) {
      q := p;
    } else {
      q := NoteHappened(ss, es, t, i, j, 2);
      ActsMeans(ss[q], es[q], t);
      RunStep(ss, es, q);
      InitInv(ttl);
      RunKeepsInv(ss, es, q);
      InvOwned(ss[q]);
      LaterNote(ss, es, t, i, p, q);
      EnqueueMakesJob(ss[q], es[q], ss[q + 1], k, log[2].job);
      EnqueueNames(ss[q], es[q], k, log[2].job);
    }
  }

  lemma InvOwned(s: State)
    requires Inv(s)
    ensures Owned(s)
  {
    hide Owned;
  }

  lemma EnqueueNames(s: State, e: ResponseCache.Event, k: Key, job: Tid)
    requires e.Step? && e.tid in s.threads && NoteOf(s, e) == [Enqueued(k, job)]
    ensures e.job == job
  {
  }

  /** Logs grow. */
  lemma {:induction false} LogGrows(ss: seq<State>, es: seq<ResponseCache.Event>, t: Tid, i: nat, p: nat, q: nat)
    requires |ss| == |es| + 1 && i <= p <= q <= |es|
    ensures |Log(ss, es, t, i, p)| <= |Log(ss, es, t, i, q)|
    decreases q
  {
    hide *;
    if p < q {
      LogGrows(ss, es, t, i, p, q - 1);
      LogAt(ss, es, t, i, q);
    }
  }

  lemma LaterNote(ss: seq<State>, es: seq<ResponseCache.Event>, t: Tid, i: nat, p: nat, q: nat)
    requires |ss| == |es| + 1 && i <= p <= |es| && i <= q <= |es|
    requires |Log(ss, es, t, i, p)| < |Log(ss, es, t, i, q)|
    ensures p < q
  {
    hide *;
    if q <= p {
      LogGrows(ss, es, t, i, q, p);
    }
  }

  lemma StaleTrace(t: Tid, k: Key, log: seq<Note>, result: Option<Value>, value: Value)
    requires RequestTrace(t, k, log, result) && log[0] == Looked(k, Some(Hit(value, true)))
    ensures result == Some(value)
    ensures (|log| == 2 && log[1] == Marked(k, true))
         || (|log| == 3 && log[1] == Marked(k, false) && log[2].Enqueued? && log[2].key == k)
  {
    assert MarkTrace(k, log[1..]);
  }

  // ------------------------------------------------------------------
  // A fresh hit takes no mark
  // ------------------------------------------------------------------

  lemma FreshHitEnds(s: State, e: ResponseCache.Event, s': State, t: Tid, k: Key, value: Value)
    requires Next(s, e, s') && ActsAs(s, e, t) && s.threads[t] == InGuard(k)
    requires Lookup(s.cache, k, s.now) == Some(Hit(value, false))
    ensures t in s'.threads && s'.threads[t] == Done(Some(value))
  {
    OnlyActorMoves(s, e, s', t);
    hide Lookup, NextCache, NextPool, Handover, Holds, Wants;
  }

  lemma DoneStays(s: State, e: ResponseCache.Event, s': State, t: Tid)
    requires Next(s, e, s') && t in s.threads && s.threads[t].Done?
    ensures t in s'.threads && s'.threads[t] == s.threads[t]
  {
    OnlyActorMoves(s, e, s', t);
    hide Lookup, NextCache, NextPool, Handover, Holds, Wants;
  }

  /** A fresh hit ends the request with that value, and from then on it owns no lock and no mark. */
  lemma {:induction false} FreshHitTakesNothing(ss: seq<State>, es: seq<ResponseCache.Event>, ttl: nat, i: nat,
                                                j: nat, t: Tid, k: Key, value: Value, r: Resource)
    requires |ss| == |es| + 1 && IsRun(ss, es) && ss[0] == Init(ttl) && i < j <= |es|
    requires ActsAs(ss[i], es[i], t) && ss[i].threads[t] == InGuard(k)
    requires Lookup(ss[i].cache, k, ss[i].now) == Some(Hit(value, false))
    ensures t in ss[j].threads && ss[j].threads[t] == Done(Some(value))
    ensures r in ss[j].owner ==> ss[j].owner[r] != t
    decreases j
  {
    hide *;
    RunStep(ss, es, j - 1);
    if j == i + 1 {
      FreshHitEnds(ss[i], es[i], ss[j], t, k, value);
    } else {
      FreshHitTakesNothing(ss, es, ttl, i, j - 1, t, k, value, r);
      DoneStays(ss[j - 1], es[j - 1], ss[j], t);
    }
    InitInv(ttl);
    RunKeepsInv(ss, es, j);
    InvOwned(ss[j]);
    DoneOwnsNothing(ss[j], t, r);
  }

  lemma DoneOwnsNothing(s: State, t: Tid, r: Resource)
    requires Owned(s) && t in s.threads && s.threads[t].Done?
    ensures r in s.owner ==> s.owner[r] != t
  {
    assert t in HeldBy(s.threads) && HeldBy(s.threads)[t] == {};
  }

  // ------------------------------------------------------------------
  // A refresh puts before it lets go
  // ------------------------------------------------------------------

  lemma RefreshHolds(s: State, t: Tid, k: Key, log: seq<Note>)
    requires Owned(s) && t in s.threads && RefreshAt(t, k, s.threads[t], log) && !s.threads[t].Done?
    ensures RefreshSlot(k) in s.owner && s.owner[RefreshSlot(k)] == t
  {
    assert RefreshSlot(k) in Holds(s.threads[t]);
    assert RefreshSlot(k) in HeldBy(s.threads)[t];
  }

  lemma WriteIsPut(s: State, e: ResponseCache.Event, k: Key, value: Value)
    requires e.Step? && e.tid in s.threads && NoteOf(s, e) == [Wrote(k, value)]
    ensures PutsKey(s, e, k) && PutEntry(s, e, k).value == value
  {
  }

  lemma RaiseIsFailure(s: State, e: ResponseCache.Event)
    requires e.Step? && e.tid in s.threads && NoteOf(s, e) == [Raised]
    ensures !e.ok
  {
  }

  /** Once a refresh job no longer owns its key's mark, it has put the key, with what it read
      itself, or its computation has raised: the mark is never taken back before. */
  lemma RefreshPutsFirst(ss: seq<State>, es: seq<ResponseCache.Event>, ttl: nat, i: nat, j: nat, t: Tid,
                         k: Key) returns (c: nat)
    requires |ss| == |es| + 1 && IsRun(ss, es) && ss[0] == Init(ttl) && i < j <= |es|
    requires t in ss[i].threads && ss[i].threads[t] == Queued(k)
    requires RefreshSlot(k) in ss[j].owner ==> ss[j].owner[RefreshSlot(k)] != t
    ensures i <= c < j && es[c].Step? && es[c].tid == t
    ensures (PutsKey(ss[c], es[c], k) && PutEntry(ss[c], es[c], k).value.author == t) || !es[c].ok
  {
    hide *;
    InitInv(ttl);
    RunKeepsInv(ss, es, j);
    InvOwned(ss[j]);
    QueuedRuns(t, k);
    EveryThreadRunsItsCode(ss, es, i, j, t);
    var log := Log(ss, es, t, i, j);
    RefreshRuns(t, k, ss[j].threads[t], log);
    if !ss[j].threads[t].Done? {
      RefreshHolds(ss[j], t, k, log);
    }
    var x := RefreshEnds(t, k, log);
    c := NoteHappened(ss, es, t, i, j, x);
    ActsMeans(ss[c], es[c], t);
    if log[x].Wrote? {
      WriteIsPut(ss[c], es[c], k, log[x].value);
    } else {
      RaiseIsFailure(ss[c], es[c]);
    }
  }

  lemma QueuedRuns(t: Tid, k: Key)
    ensures Runs(Queued(k), t, Queued(k), [])
  {
  }

  lemma RefreshRuns(t: Tid, k: Key, pc: Pc, log: seq<Note>)
    requires Runs(Queued(k), t, pc, log)
    ensures RefreshAt(t, k, pc, log) && (pc.Done? ==> RefreshTrace(t, k, log))
  {
    hide RefreshTrace;
  }

  lemma RefreshEnds(t: Tid, k: Key, log: seq<Note>) returns (x: nat)
    requires RefreshTrace(t, k, log)
    ensures x < |log| && (log[x] == Raised || (log[x].Wrote? && log[x].key == k && log[x].value.author == t))
  {
    x := |log| - 2;
    assert log[x] == log[..|log| - 1][x];
  }
}
