/** The database as an ingest updates it in place (backend/ingest.py): one method per
    transaction, each proved against the functions of Ingest, and the whole run. */
module Database {
  import opened Tables
  import opened Plan
  import opened Ingest
  import Canonical
  import Grouping
  import LatencyRollup
  import Transcript

  // ------------------------------------------------------------------
  // Facts about batches
  // ------------------------------------------------------------------

  function WonKeys(w: World, keys: set<Key>): set<Key> {
    set k | k in keys && Won(w, k)
  }

  /** After handling these keys: exactly the won ones are persisted and counted. */
  ghost predicate Handled(b0: Base, b: Base, w: World, version: string, seen: map<string, Project>,
                          handled: set<Key>, done: set<Key>, progress: Progress)
  {
    && done == WonKeys(w, handled)
    && AllWon(w, seen, done)
    && b == After(b0, w, version, seen, done)
    && progress == ProgressOf(b0.files, w, handled)
  }

  lemma HandledOne(b0: Base, b: Base, w: World, version: string, seen: map<string, Project>,
                   handled: set<Key>, done: set<Key>, progress: Progress, k: Key)
    requires Handled(b0, b, w, version, seen, handled, done, progress) && k !in handled
    requires ProjectOf(k) in seen
    ensures Won(w, k) ==>
      Handled(b0, PersistOne(b, w, version, seen, k), w, version, seen, handled + {k}, done + {k},
              Bump(progress, KindOf(b0.files, w, k)))
    ensures !Won(w, k) ==>
      Handled(b0, b, w, version, seen, handled + {k}, done, Bump(progress, KindOf(b0.files, w, k)))
  {
    ProgressGrows(b0.files, w, handled, k);
    hide After, ProgressOf, KindOf, ProjectOf, PersistOne, Won;
    if Won(w, k) {
      assert WonKeys(w, handled + {k}) == done + {k};
      AfterStep(b0, w, version, seen, done, k);
    } else {
      assert WonKeys(w, handled + {k}) == done;
    }
  }

  lemma HandledNone(b: Base, w: World, version: string, seen: map<string, Project>)
    ensures Handled(b, b, w, version, seen, {}, {}, Progress(0, 0, 0, 0))
  {
    NothingAfter(b, w, version, seen);
    hide After, KindOf, Won;
    assert forall kind :: OfKind(b.files, w, {}, kind) == {};
  }

  lemma SliceKeys(todo: seq<Item>, start: nat, end: nat)
    requires DistinctItems(todo) && start <= end <= |todo|
    ensures KeysOf(todo[..end]) == KeysOf(todo[..start]) + KeysOf(todo[start..end])
    ensures KeysOf(todo[..start]) !! KeysOf(todo[start..end])
    ensures DistinctItems(todo[start..end])
  {
    assert todo[..end] == todo[..start] + todo[start..end];
    forall k
      ensures k in KeysOf(todo[..end]) <==> k in KeysOf(todo[..start]) || k in KeysOf(todo[start..end])
    {
      ConcatKeys(todo[..start], todo[start..end], k);
    }
  }

  lemma ConcatKeys(a: seq<Item>, b: seq<Item>, k: Key)
    ensures k in KeysOf(a + b) <==> k in KeysOf(a) || k in KeysOf(b)
  {
    if k in KeysOf(a) {
      var i :| i in a && i.key == k;
      assert i in a + b;
    }
    if k in KeysOf(b) {
      var i :| i in b && i.key == k;
      assert i in a + b;
    }
  }

  lemma {:induction false} AtMostOnce(items: seq<Item>, x: Item)
    requires DistinctItems(items)
    ensures multiset(items)[x] <= 1
    ensures multiset(items)[x] == 1 <==> x in items
  {
    if items != [] {
      assert items == items[..|items| - 1] + [items[|items| - 1]];
      AtMostOnce(items[..|items| - 1], x);
    }
  }

  lemma Twice(items: seq<Item>, i: nat, j: nat)
    requires i < j < |items| && items[i] == items[j]
    ensures multiset(items)[items[i]] >= 2
  {
    assert items == items[..i] + [items[i]] + items[i + 1..j] + [items[j]] + items[j + 1..];
  }

  /** Collecting a batch in any order yields each of its keys once. */
  lemma PairedKeys(results: seq<(Item, Outcome)>, batch: seq<Item>)
    requires DistinctItems(batch) && multiset(Firsts(results)) == multiset(batch)
    ensures DistinctItems(Firsts(results)) && KeysOf(Firsts(results)) == KeysOf(batch)
  {
    var firsts := Firsts(results);
    forall x
      ensures x in firsts <==> x in batch
    {
      assert x in multiset(firsts) <==> x in multiset(batch);
    }
    forall i, j | 0 <= i < j < |firsts|
      ensures firsts[i].key != firsts[j].key
    {
      assert firsts[i] in batch && firsts[j] in batch;
      if firsts[i].key == firsts[j].key {
        AtMostOnce(batch, firsts[i]);
        Twice(firsts, i, j);
        assert false;
      }
    }
  }

  lemma BatchFatal(todo: seq<Item>, outcome: map<Key, Outcome>, start: nat, end: nat)
    requires start <= end <= |todo|
    ensures AnyFatal(todo[start..end], outcome) ==> AnyFatal(todo, outcome)
    ensures AnyFatal(todo[..end], outcome) <==> AnyFatal(todo[..start], outcome) || AnyFatal(todo[start..end], outcome)
  {
    assert todo[..end] == todo[..start] + todo[start..end];
    assert forall i | i in todo[start..end] :: i in todo && i in todo[..end];
    assert forall i | i in todo[..start] :: i in todo[..end];
    assert forall i | i in todo[..end] :: i in todo[..start] || i in todo[start..end];
  }

  lemma ExtendResults(results: seq<(Item, Outcome)>, n: nat)
    requires n < |results| && DistinctItems(Firsts(results))
    ensures KeysOf(Firsts(results)[..n + 1]) == KeysOf(Firsts(results)[..n]) + {results[n].0.key}
    ensures results[n].0.key !in KeysOf(Firsts(results)[..n])
    ensures results[n].0.key in KeysOf(Firsts(results))
  {
    var firsts := Firsts(results);
    assert firsts[..n + 1] == firsts[..n] + [firsts[n]];
    KeysOfAppend(firsts[..n], firsts[n]);
    assert firsts[n] in firsts;
  }

  lemma DeletedOldOnly(b: Base, w: World, version: string)
    requires ValidWorld(w)
    ensures (b.files.Keys + Winners(b, w, version)) - Listed(w) == b.files.Keys - Listed(w)
  {
  }

  lemma ToolRowsStep(key: Key, ts: seq<Transcript.ToolUse>, i: nat)
    requires i < |ts|
    ensures ToolUseRows(key, ts[..i + 1]) == ToolUseRows(key, ts[..i])[ToolId(key, ts[i].line, ts[i].idx) := ts[i]]
  {
    assert ts[..i + 1][..i] == ts[..i];
  }

  lemma RecordRowsStep(key: Key, rs: seq<Transcript.Record>, i: nat)
    requires i < |rs|
    ensures RecordRows(key, rs[..i + 1]) == RecordRows(key, rs[..i])[RecordId(key, rs[i].line) := Stored(rs[i], true)]
  {
    assert rs[..i + 1][..i] == rs[..i];
  }

  lemma NoUpserts(projects: map<string, Project>, seen: map<string, Project>)
    ensures ProjectsAfter(projects, seen, {}) == projects
  {
    hide Merge;
  }

  lemma NothingHandled(before: Base, w: World, version: string, seen: map<string, Project>, todo: seq<Item>)
    ensures Handled(before, before, w, version, seen, KeysOf(todo[..0]), {}, Progress(0, 0, 0, 0))
    ensures !AnyFatal(todo[..0], w.outcome)
  {
    HandledNone(before, w, version, seen);
    assert KeysOf(todo[..0]) == {};
  }

  lemma SomeWon(w: World, todo: seq<Item>, start: nat)
    requires start <= |todo|
    ensures WonKeys(w, KeysOf(todo[..start])) <= WonKeys(w, KeysOf(todo))
  {
    hide Won;
    assert forall i | i in todo[..start] :: i in todo;
  }

  lemma NoKeys(items: seq<Item>)
    ensures KeysOf(items[..0]) == {}
  {
  }

  lemma BatchItem(results: seq<(Item, Outcome)>, todo: seq<Item>, start: nat, end: nat, outcome: map<Key, Outcome>,
                  j: nat)
    requires start <= end <= |todo| && j < |results| && Pairs(results, todo[start..end], outcome)
    requires !AnyFatal(todo[start..end], outcome)
    ensures results[j].0 in todo && results[j].0 in todo[start..end]
    ensures results[j].0.key in outcome && results[j].1 == outcome[results[j].0.key] && !results[j].1.Fatal?
  {
    assert Firsts(results)[j] in multiset(Firsts(results));
    assert results[j] in results;
    assert results[j].0 in multiset(todo[start..end]);
  }

  lemma KindFits(files0: map<Key, FileRow>, w: World, item: Item)
    requires item.key in w.meta && item.key in w.outcome && item.stored == StoredOf(files0, item.key)
    ensures Won(w, item.key) <==> w.outcome[item.key].Parsed?
    ensures KindOf(files0, w, item.key) == match w.outcome[item.key]
                                          case Parsed(_) => if item.stored.None? then Inserted else Reparsed
                                          case Unsupported => Skipped
                                          case Failed => Failing
                                          case Fatal => Uncounted
  {
  }

  lemma WinnersAreWonKeys(b: Base, w: World, version: string)
    ensures WonKeys(w, Due(b.files, w, version)) == Winners(b, w, version)
  {
  }

  lemma FilesThen(b: Base, w: World, version: string)
    requires ValidWorld(w) && AllWon(w, Seen(w, w.keys), Winners(b, w, version))
    ensures After(b, w, version, Seen(w, w.keys), Winners(b, w, version)).files.Keys
        == b.files.Keys + Winners(b, w, version)
  {
    hide RecordsAfter, ToolsAfter, ProjectsAfter, Seen, Winners, NewFile;
  }

  lemma TodoKnown(b: Base, w: World, version: string)
    requires ValidWorld(w)
    ensures forall i | i in Todo(b.files, w, version, w.keys) ::
      i.key in w.meta && i.key in w.outcome && ProjectOf(i.key) in Seen(w, w.keys)
  {
    hide Todo, Seen, ProjectOf, SpansProject, NeedsWork, Proper, IsWireKey;
    WholeTodoIsDue(b.files, w, version);
    SeenSpans(w, |w.keys|);
    assert w.keys[..|w.keys|] == w.keys;
    forall i | i in Todo(b.files, w, version, w.keys)
      ensures i.key in w.keys
    {
      assert i.key in KeysOf(Todo(b.files, w, version, w.keys));
    }
  }

  lemma DueFatal(b: Base, w: World, version: string)
    requires ValidWorld(w)
    ensures AnyFatal(Todo(b.files, w, version, w.keys), w.outcome) <==> !NoFatal(b, w, version)
  {
    hide Todo, NeedsWork, Proper, IsWireKey;
    WholeTodoIsDue(b.files, w, version);
    var todo := Todo(b.files, w, version, w.keys);
    if !NoFatal(b, w, version) {
      var k :| k in Due(b.files, w, version) && !(k in w.outcome && !w.outcome[k].Fatal?);
      assert k in KeysOf(todo);
      var i :| i in todo && i.key == k;
    }
    if AnyFatal(todo, w.outcome) {
      var i :| i in todo && i.key in w.outcome && w.outcome[i.key].Fatal?;
      assert i.key in KeysOf(todo);
    }
  }

  // ------------------------------------------------------------------
  // The database
  // ------------------------------------------------------------------

  class Database {
    var files: map<Key, FileRow>
    var records: map<RecordId, Stored>
    var tools: map<ToolId, Transcript.ToolUse>
    var projects: map<string, Project>
    var usage: map<UsageLabel, Grouping.Entry<UsageLabel>>
    var toolRollup: map<ToolLabel, Grouping.Entry<ToolLabel>>
    var latency: map<LatencyLabel, map<RecordId, Transcript.Record>>

    ghost function Rows(): Base
      reads this
    {
      Base(files, records, tools, projects)
    }

    ghost function View(): Store
      reads this
    {
      Store(Rows(), usage, toolRollup, latency)
    }

    constructor ()
      ensures View() == Store(Base(map[], map[], map[], map[]), map[], map[], map[])
    {
      files, records, tools, projects := map[], map[], map[], map[];
      usage, toolRollup, latency := map[], map[], map[];
    }

    method UpsertProject(id: string, p: Project)
      modifies this`projects
      ensures projects == Upsert(old(projects), id, p)
    {
      if id in projects {
        var known := projects[id];
        projects := projects[id := Project(p.name, Grouping.Min(known.firstSeen, p.firstSeen),
                                           Grouping.Max(known.lastSeen, p.lastSeen))];
      } else {
        projects := projects[id := p];
      }
    }

    /** One file, one transaction. */
    method Persist(w: World, version: string, seen: map<string, Project>, key: Key)
      requires Won(w, key) && ProjectOf(key) in seen
      modifies this`files, this`records, this`tools, this`projects
      ensures Rows() == PersistOne(old(Rows()), w, version, seen, key)
    {
      hide ProjectOf, SessionOf, IsMain, Upsert;
      var parsed := w.outcome[key].parsed;
      UpsertProject(ProjectOf(key), seen[ProjectOf(key)]);
      records := RecordsElsewhere(records, key);
      files := files[key := FileRow(ProjectOf(key), SessionOf(key), IsMain(key), w.meta[key].etag, version,
                                    w.meta[key].modified, parsed.ctxTurns)];
      tools := ToolsElsewhere(tools, key);
      InsertTools(key, parsed.tools);
      InsertRecords(key, parsed.records);
    }

    method InsertTools(key: Key, ts: seq<Transcript.ToolUse>)
      modifies this`tools
      ensures tools == old(tools) + ToolUseRows(key, ts)
    {
      assert ToolUseRows(key, ts[..0]) == map[];
      hide ToolUseRows;
      for i := 0 to |ts|
        invariant tools == old(tools) + ToolUseRows(key, ts[..i])
      {
        ToolRowsStep(key, ts, i);
        tools := tools[ToolId(key, ts[i].line, ts[i].idx) := ts[i]];
      }
      assert ts[..|ts|] == ts;
    }

    method InsertRecords(key: Key, rs: seq<Transcript.Record>)
      modifies this`records
      ensures records == old(records) + RecordRows(key, rs)
    {
      assert RecordRows(key, rs[..0]) == map[];
      hide RecordRows;
      for i := 0 to |rs|
        invariant records == old(records) + RecordRows(key, rs[..i])
      {
        RecordRowsStep(key, rs, i);
        records := records[RecordId(key, rs[i].line) := Stored(rs[i], true)];
      }
      assert rs[..|rs|] == rs;
    }

    /** Persist a parsed file, or count why there is none. */
    method PersistOutcome(w: World, version: string, seen: map<string, Project>, item: Item,
                          outcome: Outcome) returns (kind: Kind)
      requires item.key in w.meta && item.key in w.outcome && w.outcome[item.key] == outcome
          && ProjectOf(item.key) in seen
      modifies this`files, this`records, this`tools, this`projects
      ensures Rows() == if Won(w, item.key) then PersistOne(old(Rows()), w, version, seen, item.key) else old(Rows())
      ensures kind == match outcome
                      case Parsed(_) => if item.stored.None? then Inserted else Reparsed
                      case Unsupported => Skipped
                      case Failed => Failing
                      case Fatal => Uncounted
    {
      hide PersistOne;
      match outcome
      case Unsupported => kind := Skipped;
      case Failed => kind := Failing;
      case Fatal => kind := Uncounted;
      case Parsed(_) =>
        Persist(w, version, seen, item.key);
        kind := if item.stored.None? then Inserted else Reparsed;
    }

    /** Fetch in bounded chunks on a pool, persist on this thread.  Unless an outcome
        is fatal, every parsable file is persisted, and rows and counts are functions
        of the work list alone: not of the worker count, the chunk size or the order
        in which fetches complete. */
    method FetchAndPersist(w: World, version: string, seen: map<string, Project>, todo: seq<Item>, workers: nat)
      returns (progress: Progress, fatal: bool, done: set<Key>)
      requires DistinctItems(todo)
      requires forall i | i in todo :: i.key in w.meta && i.key in w.outcome && ProjectOf(i.key) in seen
      requires forall i | i in todo :: i.stored == StoredOf(files, i.key)
      modifies this`files, this`records, this`tools, this`projects
      ensures done <= WonKeys(w, KeysOf(todo)) && AllWon(w, seen, done)
      ensures Rows() == After(old(Rows()), w, version, seen, done)
      ensures fatal <==> AnyFatal(todo, w.outcome)
      ensures !fatal ==> done == WonKeys(w, KeysOf(todo)) && progress == ProgressOf(old(files), w, KeysOf(todo))
    {
      hide ProjectOf, After, ProgressOf, PersistOne, AnyFatal, KeysOf, StoredOf;
      progress, done, fatal := Progress(0, 0, 0, 0), {}, false;
      ghost var before := Rows();
      var chunk := if workers * 4 < 1 then 1 else workers * 4;
      var start := 0;
      NothingHandled(before, w, version, seen, todo);
      while start < |todo|
        invariant 0 <= start <= |todo|
        invariant Handled(before, Rows(), w, version, seen, KeysOf(todo[..start]), done, progress)
        invariant !AnyFatal(todo[..start], w.outcome)
      {
        var end := if start + chunk < |todo| then start + chunk else |todo|;
        SliceKeys(todo, start, end);
        BatchFatal(todo, w.outcome, start, end);
        var results, escaped := Resolve(todo[start..end], w.outcome, workers);
        if escaped {
          SomeWon(w, todo, start);
          return progress, true, done;
        }
        progress, done := PersistBatch(before, w, version, seen, todo, start, end, results, progress, done);
        start := end;
      }
      assert todo[..|todo|] == todo;
    }

    /** Persist one batch's results, in the order they were collected. */
    method PersistBatch(ghost before: Base, w: World, version: string, seen: map<string, Project>,
                        ghost todo: seq<Item>, ghost start: nat, ghost end: nat, results: seq<(Item, Outcome)>,
                        progress0: Progress, done0: set<Key>)
      returns (progress: Progress, done: set<Key>)
      requires start <= end <= |todo| && DistinctItems(todo)
      requires forall i | i in todo :: i.key in w.meta && i.key in w.outcome && ProjectOf(i.key) in seen
      requires forall i | i in todo :: i.stored == StoredOf(before.files, i.key)
      requires Handled(before, Rows(), w, version, seen, KeysOf(todo[..start]), done0, progress0)
      requires Pairs(results, todo[start..end], w.outcome) && !AnyFatal(todo[start..end], w.outcome)
      modifies this`files, this`records, this`tools, this`projects
      ensures Handled(before, Rows(), w, version, seen, KeysOf(todo[..end]), done, progress)
    {
      hide ProjectOf, After, ProgressOf, PersistOne, AnyFatal, KeysOf, StoredOf, Handled, Won, KindOf, Bump;
      progress, done := progress0, done0;
      ghost var handled := KeysOf(todo[..start]);
      SliceKeys(todo, start, end);
      PairedKeys(results, todo[start..end]);
      NoKeys(Firsts(results));
      for j := 0 to |results|
        invariant handled == KeysOf(todo[..start]) + KeysOf(Firsts(results)[..j])
        invariant Handled(before, Rows(), w, version, seen, handled, done, progress)
      {
        var item, outcome := results[j].0, results[j].1;
        BatchItem(results, todo, start, end, w.outcome, j);
        ExtendResults(results, j);
        HandledOne(before, Rows(), w, version, seen, handled, done, progress, item.key);
        KindFits(before.files, w, item);
        var kind := PersistOutcome(w, version, seen, item, outcome);
        progress := Bump(progress, kind);
        if outcome.Parsed? {
          done := done + {item.key};
        }
        handled := handled + {item.key};
      }
      assert Firsts(results)[..|results|] == Firsts(results);
    }

    /** The unconditional upsert of every seen project, in any order. */
    method UpsertProjects(seen: map<string, Project>)
      modifies this`projects
      ensures projects == ProjectsAfter(old(projects), seen, seen.Keys)
    {
      hide ProjectsAfter, Upsert;
      var rest := seen.Keys;
      ghost var done: set<string> := {};
      NoUpserts(projects, seen);
      while rest != {}
        invariant rest + done == seen.Keys && rest !! done
        invariant projects == ProjectsAfter(old(projects), seen, done)
        decreases |rest|
      {
        var id :| id in rest;
        ProjectsStep(old(projects), seen, done, id);
        UpsertProject(id, seen[id]);
        done := done + {id};
        rest := rest - {id};
      }
      assert done == seen.Keys;
    }

    method DeleteOrphans(listed: set<Key>) returns (deleted: nat)
      modifies this`files, this`records, this`tools
      ensures Rows() == DeleteOrphaned(old(Rows()), listed)
      ensures deleted == |old(files).Keys - listed|
    {
      var orphans := files.Keys - listed;
      deleted := |orphans|;
      files := map k | k in files && k in listed :: files[k];
      records := map id | id in records && id.file in listed :: records[id];
      tools := map id | id in tools && id.file in listed :: tools[id];
    }

    method RecomputeCanonical() returns (changed: nat)
      modifies this`records
      ensures records == Canonical.Flagged(old(records)) && changed == |Canonical.Flips(old(records))|
    {
      records, changed := Canonical.Recompute(records);
    }

    /** Raises, leaving the table as it was, exactly when two groups agree on the
        primary key (session, hour, model, is_main) but not on the project. */
    method RebuildRollup() returns (ok: bool)
      modifies this`usage
      ensures ok <==> UsageRolls(Rows())
      ensures usage == if ok then UsageTable(files, records) else old(usage)
    {
      hide UsageRows;
      var table := Grouping.Group(UsageRows(files, records));
      Grouping.GroupByKeys(UsageRows(files, records));
      ok := UsageKeyHolds(table.Keys);
      if ok {
        usage := table;
      }
    }

    method RebuildToolRollup()
      modifies this`toolRollup
      ensures toolRollup == ToolTable(files, tools)
    {
      toolRollup := Grouping.Group(ToolRows(files, tools));
    }

    /** Raises, leaving the table as it was, exactly when a timed record is stored under
        an empty project id, whose group the all-projects pass would insert again. */
    method RebuildLatencyRollup() returns (ok: bool)
      modifies this`latency
      ensures ok <==> !LatencyCollides(Rows())
      ensures latency == if ok then LatencyTable(files, records) else old(latency)
    {
      var rebuilt := LatencyRollup.Rebuild(files, records);
      ok := rebuilt.Some?;
      if ok {
        latency := rebuilt.value;
      }
    }

    /** From the listing to the deleted orphans; a fatal fetch ends it early. */
    method MainPass(w: World, version: string, workers: nat) returns (counts: Counts, fatal: bool, done: set<Key>)
      requires ValidWorld(w)
      modifies this`files, this`records, this`tools, this`projects
      ensures fatal <==> !NoFatal(old(Rows()), w, version)
      ensures counts == if fatal then NO_COUNTS else CountsOf(old(Rows()), w, version)
      ensures AllWon(w, Seen(w, w.keys), Winners(old(Rows()), w, version))
      ensures fatal ==>
        && done <= Winners(old(Rows()), w, version) && AllWon(w, Seen(w, w.keys), done)
        && Rows() == After(old(Rows()), w, version, Seen(w, w.keys), done)
      ensures !fatal ==> Rows() == Main(old(Rows()), w, version)
    {
      hide ProjectOf, After, ProgressOf, AnyFatal, NeedsWork, StoredOf, Todo, Seen, DeleteOrphaned, ProjectsAfter,
           NoFatal, Winners, WonKeys, AllWon, KeysOf, Due;
      ghost var before := Rows();
      var listed, seenKeys, seen, todo := PlanWork(w, files, version);
      WholeTodoIsDue(files, w, version);
      WinnersWon(before, w, version, Winners(before, w, version));
      WinnersAreWonKeys(before, w, version);
      TodoKnown(before, w, version);
      DueFatal(before, w, version);
      var progress: Progress;
      progress, fatal, done := FetchAndPersist(w, version, seen, todo, workers);
      if fatal {
        return NO_COUNTS, true, done;
      }
      UpsertProjects(seen);
      FilesThen(before, w, version);
      var deleted := DeleteOrphans(seenKeys);
      DeletedOldOnly(before, w, version);
      counts := Counts(listed, progress.inserted, progress.reparsed, deleted, w.foreign + progress.skipped,
          progress.failed);
    }

    /** The post-passes, in the order they depend on one another. */
    method Rebuild() returns (stage: Stage)
      modifies this`records, this`usage, this`toolRollup, this`latency
      ensures stage == RebuildStage(Flag(old(View())).base)
      ensures View() == match stage
                        case DiedFlagged => Flag(old(View()))
                        case DiedTooled => RollTools(Roll(Flag(old(View()))))
                        case _ => RollLatency(RollTools(Roll(Flag(old(View())))))
    {
      hide UsageRolls, LatencyCollides, UsageTable, ToolTable, LatencyTable;
      var changed := RecomputeCanonical();
      var rolled := RebuildRollup();
      if !rolled {
        return DiedFlagged;
      }
      RebuildToolRollup();
      var banded := RebuildLatencyRollup();
      return if banded then Finished else DiedTooled;
    }

    /** One run.  The stage says how far it got: a fatal fetch stops it after some
        files, a primary-key conflict stops the rebuild it occurs in. */
    method RunIngest(w: World, version: string, workers: nat) returns (counts: Counts, stage: Stage)
      requires ValidWorld(w)
      modifies this
      ensures Possible(old(View()), w, version, stage)
      ensures View() == Apply(old(View()), w, version, stage)
      ensures stage.DiedFetching? <==> !NoFatal(old(Rows()), w, version)
      ensures !stage.DiedFetching? ==> stage == RebuildStage(Flag(MainStore(old(View()), w, version)).base)
      ensures counts == if stage.DiedFetching? then NO_COUNTS else CountsOf(old(Rows()), w, version)
    {
      hide After, Seen, Winners, UsageRolls, LatencyCollides, Main, NoFatal, CountsOf, AllWon;
      var fatal, done;
      counts, fatal, done := MainPass(w, version, workers);
      if fatal {
        return counts, DiedFetching(done);
      }
      assert View() == MainStore(old(View()), w, version);
      stage := Rebuild();
    }
  }
}
