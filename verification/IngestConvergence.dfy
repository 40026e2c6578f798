/** The tables hold what the parser makes of the bucket, over every history of runs;
    so databases that caught up with the same bucket agree whatever happened before
    (backend/ingest.py:197-248, 335-438, 873-964). */
module IngestConvergence {
  import opened Tables
  import opened Plan
  import opened Ingest
  import opened IngestHistory
  import Canonical
  import Grouping
  import Transcript

  /** What a parser version makes of a key's content under an etag: an etag names its
      content, and parsing is deterministic. */
  type Truth = (string, Key, string) -> Transcript.Parsed

  ghost predicate Truthful(truth: Truth, w: World, version: string) {
    forall k | k in w.keys && Won(w, k) :: w.outcome[k].parsed == truth(version, k, w.meta[k].etag)
  }

  ghost predicate TruthfulHistory(truth: Truth, history: seq<Event>) {
    forall e | e in history :: Truthful(truth, e.world, e.version)
  }

  function ParseOf(truth: Truth, files: map<Key, FileRow>, k: Key): Transcript.Parsed
    requires k in files
  {
    truth(files[k].version, k, files[k].etag)
  }

  ghost predicate RecordsMatch(records: map<RecordId, Stored>, k: Key, rows: map<RecordId, Stored>) {
    forall id: RecordId | id.file == k ::
      (id in records <==> id in rows) && (id in records ==> records[id].record == rows[id].record)
  }

  ghost predicate ToolsMatch(tools: map<ToolId, Transcript.ToolUse>, k: Key, rows: map<ToolId, Transcript.ToolUse>) {
    forall id: ToolId | id.file == k ::
      (id in tools <==> id in rows) && (id in tools ==> tools[id] == rows[id])
  }

  /** File k's context rows, records and calls are exactly its parse. */
  ghost predicate Holds(b: Base, k: Key, parsed: Transcript.Parsed)
    requires k in b.files
  {
    && b.files[k].ctxTurns == parsed.ctxTurns
    && RecordsMatch(b.records, k, RecordRows(k, parsed.records))
    && ToolsMatch(b.tools, k, ToolUseRows(k, parsed.tools))
  }

  /** Every stored file holds what the parser version it was parsed with makes of the
      content it was parsed from: no row outlives a reparse, none is missing. */
  ghost predicate Faithful(b: Base, truth: Truth) {
    forall k | k in b.files :: Holds(b, k, ParseOf(truth, b.files, k))
  }

  // ------------------------------------------------------------------
  // Rows and parses
  // ------------------------------------------------------------------

  /** The stored rows of a proper parse are its records, one each, flags at their default. */
  lemma {:induction false} RowsAreTheParse(key: Key, rs: seq<Transcript.Record>, r: Transcript.Record)
    requires forall i, j | 0 <= i < j < |rs| :: rs[i].line < rs[j].line
    ensures r in rs
       <==> && RecordId(key, r.line) in RecordRows(key, rs)
            && RecordRows(key, rs)[RecordId(key, r.line)] == Stored(r, true)
  {
    if rs != [] {
      var last := |rs| - 1;
      RowsAreTheParse(key, rs[..last], r);
      assert rs == rs[..last] + [rs[last]];
      assert forall x | x in rs[..last] :: x.line < rs[last].line;
    }
  }

  /** And its stored calls are its calls, one each. */
  lemma {:induction false} CallsAreTheParse(key: Key, ts: seq<Transcript.ToolUse>, t: Transcript.ToolUse)
    requires forall i | 0 <= i < |ts| :: ts[i].idx == i
    ensures t in ts
       <==> && ToolId(key, t.line, t.idx) in ToolUseRows(key, ts)
            && ToolUseRows(key, ts)[ToolId(key, t.line, t.idx)] == t
  {
    if ts != [] {
      var last := |ts| - 1;
      CallsAreTheParse(key, ts[..last], t);
      assert ts == ts[..last] + [ts[last]];
      assert forall x | x in ts[..last] :: x.idx < last;
    }
  }

  // ------------------------------------------------------------------
  // Every run keeps faith
  // ------------------------------------------------------------------

  lemma WonFileHolds(b: Base, w: World, version: string, seen: map<string, Project>, done: set<Key>, k: Key)
    requires AllWon(w, seen, done) && k in done
    ensures Holds(After(b, w, version, seen, done), k, w.outcome[k].parsed)
  {
    hide RecordsAfter, ToolsAfter, ProjectsAfter, ProjectOf, SessionOf, IsMain, RecordRows, ToolUseRows;
    forall id: RecordId | id.file == k
      ensures var rows := RecordRows(k, w.outcome[k].parsed.records);
              var records := RecordsAfter(b.records, w, seen, done);
              (id in records <==> id in rows) && (id in records ==> records[id] == rows[id])
    {
      RecordAfter(b.records, w, seen, done, id);
    }
    forall id: ToolId | id.file == k
      ensures var rows := ToolUseRows(k, w.outcome[k].parsed.tools);
              var tools := ToolsAfter(b.tools, w, seen, done);
              (id in tools <==> id in rows) && (id in tools ==> tools[id] == rows[id])
    {
      ToolAfter(b.tools, w, seen, done, id);
    }
  }

  lemma OtherFileHolds(b: Base, w: World, version: string, seen: map<string, Project>, done: set<Key>, k: Key,
                       parsed: Transcript.Parsed)
    requires AllWon(w, seen, done) && k !in done && k in b.files && Holds(b, k, parsed)
    ensures Holds(After(b, w, version, seen, done), k, parsed)
  {
    hide RecordsAfter, ToolsAfter, ProjectsAfter, ProjectOf, NewFile, RecordRows, ToolUseRows, NewRecords, NewTools;
    forall id: RecordId | id.file == k
      ensures var records := RecordsAfter(b.records, w, seen, done);
              (id in records <==> id in b.records) && (id in records ==> records[id] == b.records[id])
    {
      RecordAfter(b.records, w, seen, done, id);
    }
    forall id: ToolId | id.file == k
      ensures var tools := ToolsAfter(b.tools, w, seen, done);
              (id in tools <==> id in b.tools) && (id in tools ==> tools[id] == b.tools[id])
    {
      ToolAfter(b.tools, w, seen, done, id);
    }
  }

  lemma AfterKeepsFaith(b: Base, w: World, version: string, seen: map<string, Project>, done: set<Key>, truth: Truth)
    requires Faithful(b, truth) && Truthful(truth, w, version) && AllWon(w, seen, done) && done <= Listed(w)
    ensures Faithful(After(b, w, version, seen, done), truth)
  {
    var after := After(b, w, version, seen, done);
    hide Holds, RecordsAfter, ToolsAfter, ProjectsAfter, ProjectOf, SessionOf, IsMain;
    forall k | k in after.files
      ensures Holds(after, k, ParseOf(truth, after.files, k))
    {
      if k in done {
        WonFileHolds(b, w, version, seen, done, k);
        assert k in w.keys && after.files[k] == NewFile(w, version, k);
      } else {
        OtherFileHolds(b, w, version, seen, done, k, ParseOf(truth, b.files, k));
        assert after.files[k] == b.files[k];
      }
    }
  }

  lemma DeleteKeepsFaith(b: Base, listed: set<Key>, truth: Truth)
    requires Faithful(b, truth)
    ensures Faithful(DeleteOrphaned(b, listed), truth)
  {
    hide RecordRows, ToolUseRows;
    var after := DeleteOrphaned(b, listed);
    forall k | k in after.files
      ensures Holds(after, k, ParseOf(truth, after.files, k))
    {
      assert Holds(b, k, ParseOf(truth, b.files, k));
    }
  }

  lemma FlagKeepsFaith(s: Store, truth: Truth)
    requires Faithful(s.base, truth)
    ensures Faithful(Flag(s).base, truth)
  {
    hide RecordRows, ToolUseRows, Canonical.Leads;
    forall k | k in s.base.files
      ensures Holds(Flag(s).base, k, ParseOf(truth, s.base.files, k))
    {
      assert Holds(s.base, k, ParseOf(truth, s.base.files, k));
    }
  }

  lemma ProjectsKeepFaith(b: Base, projects: map<string, Project>, truth: Truth)
    requires Faithful(b, truth)
    ensures Faithful(b.(projects := projects), truth)
  {
    hide RecordsMatch, ToolsMatch, RecordRows, ToolUseRows;
    forall k | k in b.files
      ensures Holds(b.(projects := projects), k, ParseOf(truth, b.files, k))
    {
      assert Holds(b, k, ParseOf(truth, b.files, k));
    }
  }

  lemma ApplyKeepsFaith(s: Store, w: World, version: string, stage: Stage, truth: Truth)
    requires Faithful(s.base, truth) && Truthful(truth, w, version) && Possible(s, w, version, stage)
    ensures Faithful(Apply(s, w, version, stage).base, truth)
  {
    hide Faithful, Truthful, After, Seen, AllWon, Winners, Canonical.Flagged, UsageTable, ToolTable, LatencyTable,
         UsageRolls, LatencyCollides, NoFatal, IsWireKey, Proper, ProjectsAfter, DeleteOrphaned;
    var seen, won := Seen(w, w.keys), Winners(s.base, w, version);
    WinnersWon(s.base, w, version, won);
    WinnersListed(s.base, w, version);
    if stage.DiedFetching? {
      WinnersWon(s.base, w, version, stage.done);
      AfterKeepsFaith(s.base, w, version, seen, stage.done, truth);
    } else {
      var after := After(s.base, w, version, seen, won);
      AfterKeepsFaith(s.base, w, version, seen, won, truth);
      ProjectsKeepFaith(after, ProjectsAfter(after.projects, seen, seen.Keys), truth);
      DeleteKeepsFaith(UpsertAll(after, seen), Listed(w), truth);
      FlagKeepsFaith(MainStore(s, w, version), truth);
    }
  }

  /** After any history, every stored file holds exactly what its parser version makes
      of the content its etag names. */
  lemma {:induction false} EveryStateIsFaithful(history: seq<Event>, truth: Truth)
    requires Feasible(history) && TruthfulHistory(truth, history)
    ensures Faithful(StateAfter(history).base, truth)
  {
    if history != [] {
      var last := history[|history| - 1];
      assert last in history;
      hide Possible, Apply, Holds, Truthful;
      EveryStateIsFaithful(history[..|history| - 1], truth);
      ApplyKeepsFaith(StateAfter(history[..|history| - 1]), last.world, last.version, last.stage, truth);
    }
  }

  // ------------------------------------------------------------------
  // Catching up
  // ------------------------------------------------------------------

  /** Exactly the listed files are stored, each at its listed etag and this version. */
  ghost predicate CaughtUp(b: Base, w: World, version: string) {
    b.files.Keys == Listed(w) && forall k | k in w.keys :: Current(b.files, w, version, k)
  }

  lemma ListedIsCurrent(b: Base, w: World, version: string, k: Key)
    requires ValidWorld(w) && AllWon(w, Seen(w, w.keys), Winners(b, w, version)) && k in w.keys
    requires Due(b.files, w, version) == Winners(b, w, version)
    ensures Current(Main(b, w, version).files, w, version, k)
  {
    MainFile(b, w, version, k);
    hide Main, Seen, IsWireKey, Proper, AllWon, ProjectOf, SessionOf, IsMain, Winners;
    if k !in Winners(b, w, version) {
      assert !NeedsWork(b.files, w, version, k);
    } else {
      DueIsWon(b, w, version, k);
    }
  }

  lemma DueIsWon(b: Base, w: World, version: string, k: Key)
    requires k in Winners(b, w, version)
    ensures Won(w, k)
  {
  }

  /** A run in which every due file is fetched and parsed catches up. */
  lemma CleanRunCatchesUp(b: Base, w: World, version: string)
    requires ValidWorld(w) && Due(b.files, w, version) == Winners(b, w, version)
    ensures AllWon(w, Seen(w, w.keys), Winners(b, w, version))
    ensures CaughtUp(Main(b, w, version), w, version)
  {
    hide Main, Seen, IsWireKey, Proper, AllWon, Due, Winners;
    WinnersWon(b, w, version, Winners(b, w, version));
    StoredWereListed(b, w, version);
    forall k | k in w.keys
      ensures Current(Main(b, w, version).files, w, version, k)
    {
      ListedIsCurrent(b, w, version, k);
    }
  }

  /** The same files, each parsed from the same content by the same parser version. */
  ghost predicate SameContent(a: map<Key, FileRow>, b: map<Key, FileRow>) {
    a.Keys == b.Keys && forall k | k in a :: a[k].etag == b[k].etag && a[k].version == b[k].version
  }

  lemma CaughtUpIsSameContent(a: Base, b: Base, w: World, version: string)
    requires CaughtUp(a, w, version) && CaughtUp(b, w, version)
    ensures SameContent(a.files, b.files)
  {
    forall k | k in a.files
      ensures a.files[k].etag == b.files[k].etag && a.files[k].version == b.files[k].version
    {
      assert k in w.keys;
    }
  }

  lemma SameParse(a: Base, b: Base, truth: Truth, k: Key)
    requires Faithful(a, truth) && Faithful(b, truth) && k in a.files && SameContent(a.files, b.files)
    ensures k in b.files && Holds(a, k, ParseOf(truth, a.files, k)) && Holds(b, k, ParseOf(truth, a.files, k))
  {
    hide Holds;
    assert ParseOf(truth, a.files, k) == ParseOf(truth, b.files, k);
  }

  lemma SameRecord(a: Base, b: Base, truth: Truth, id: RecordId)
    requires Faithful(a, truth) && Faithful(b, truth) && id in a.records && id.file in a.files
    requires SameContent(a.files, b.files)
    ensures id in b.records && a.records[id].record == b.records[id].record
  {
    hide Faithful, SameContent, RecordRows, ToolsMatch;
    SameParse(a, b, truth, id.file);
  }

  lemma SameTool(a: Base, b: Base, truth: Truth, id: ToolId)
    requires Faithful(a, truth) && Faithful(b, truth) && id in a.tools && id.file in a.files
    requires SameContent(a.files, b.files)
    ensures id in b.tools && a.tools[id] == b.tools[id]
  {
    hide Faithful, SameContent, ToolUseRows, RecordsMatch;
    SameParse(a, b, truth, id.file);
  }

  /** Every row of a is a row of b. */
  lemma RowsIncluded(a: Base, b: Base, truth: Truth)
    requires Faithful(a, truth) && Faithful(b, truth) && RowsValid(a) && SameContent(a.files, b.files)
    ensures forall id | id in a.records :: id in b.records && a.records[id].record == b.records[id].record
    ensures forall id | id in a.tools :: id in b.tools && a.tools[id] == b.tools[id]
  {
    hide Faithful, SameContent;
    forall id | id in a.records
      ensures id in b.records && a.records[id].record == b.records[id].record
    {
      SameRecord(a, b, truth, id);
    }
    forall id | id in a.tools
      ensures id in b.tools && a.tools[id] == b.tools[id]
    {
      SameTool(a, b, truth, id);
    }
  }

  lemma SameContentFlips(a: map<Key, FileRow>, b: map<Key, FileRow>)
    requires SameContent(a, b)
    ensures SameContent(b, a)
  {
  }

  lemma SameRows(a: Base, b: Base, truth: Truth)
    requires Faithful(a, truth) && Faithful(b, truth) && RowsValid(a) && RowsValid(b) && SameContent(a.files, b.files)
    ensures Canonical.Raw(a.records) == Canonical.Raw(b.records) && a.tools == b.tools
  {
    hide Faithful, SameContent, RowsValid;
    SameContentFlips(a.files, b.files);
    RowsIncluded(a, b, truth);
    RowsIncluded(b, a, truth);
  }

  /** Same keys and, file by file, the columns the rollups join on. */
  ghost predicate FilesAgree(a: map<Key, FileRow>, b: map<Key, FileRow>) {
    a.Keys == b.Keys
    && forall k | k in a :: a[k].project == b[k].project && a[k].session == b[k].session && a[k].isMain == b[k].isMain
  }

  lemma RollupsAgree(a: map<Key, FileRow>, b: map<Key, FileRow>, records: map<RecordId, Stored>,
                     tools: map<ToolId, Transcript.ToolUse>)
    requires FilesAgree(a, b)
    ensures UsageTable(a, records) == UsageTable(b, records)
    ensures ToolTable(a, tools) == ToolTable(b, tools)
    ensures LatencyTable(a, records) == LatencyTable(b, records)
  {
    hide Grouping.GroupBy, ModelName, Trunc, Bucket;
    assert UsageRows(a, records) == UsageRows(b, records);
    assert ToolRows(a, tools) == ToolRows(b, tools);
    LatencyAgrees(a, b, records);
  }

  lemma LatencyAgrees(a: map<Key, FileRow>, b: map<Key, FileRow>, records: map<RecordId, Stored>)
    requires FilesAgree(a, b)
    ensures LatencyTable(a, records) == LatencyTable(b, records)
  {
    hide LatencyGroups, Population, FilesAgree;
    GroupsAgree(a, b, records);
    forall g | g in LatencyGroups(a, records) && 0 < g.bucketS
      ensures Population(a, records, g) == Population(b, records, g)
    {
      PopulationsAgree(a, b, records, g);
    }
  }

  lemma PopulationsAgree(a: map<Key, FileRow>, b: map<Key, FileRow>, records: map<RecordId, Stored>, g: LatencyLabel)
    requires FilesAgree(a, b) && 0 < g.bucketS
    ensures Population(a, records, g) == Population(b, records, g)
  {
    hide ModelName, Bucket;
  }

  lemma GroupsAgree(a: map<Key, FileRow>, b: map<Key, FileRow>, records: map<RecordId, Stored>)
    requires FilesAgree(a, b)
    ensures LatencyGroups(a, records) == LatencyGroups(b, records)
  {
    hide ModelName, BucketOf, Timed;
  }

  /** Two databases that caught up with the same bucket under the same parser version
      agree on every record, flag, call and rollup, whatever runs, failures and deaths
      each went through. */
  lemma CaughtUpDatabasesAgree(a: seq<Event>, b: seq<Event>, w: World, version: string, truth: Truth)
    requires Feasible(a) && a != [] && a[|a| - 1].stage.Finished? && TruthfulHistory(truth, a)
    requires Feasible(b) && b != [] && b[|b| - 1].stage.Finished? && TruthfulHistory(truth, b)
    requires CaughtUp(StateAfter(a).base, w, version) && CaughtUp(StateAfter(b).base, w, version)
    ensures var s, t := StateAfter(a), StateAfter(b);
            && s.base.records == t.base.records && s.base.tools == t.base.tools
            && s.usage == t.usage && s.toolRollup == t.toolRollup && s.latency == t.latency
  {
    EveryStateIsValid(a);
    EveryStateIsValid(b);
    EveryStateIsFaithful(a, truth);
    EveryStateIsFaithful(b, truth);
    FinishedRunLeavesConsistency(a);
    FinishedRunLeavesConsistency(b);
    hide Feasible, StateAfter, TruthfulHistory, CaughtUp;
    CaughtUpIsSameContent(StateAfter(a).base, StateAfter(b).base, w, version);
    SameContentAgrees(StateAfter(a), StateAfter(b), truth);
  }

  lemma SameContentAgrees(s: Store, t: Store, truth: Truth)
    requires Valid(s.base) && Faithful(s.base, truth) && Consistent(s)
    requires Valid(t.base) && Faithful(t.base, truth) && Consistent(t)
    requires SameContent(s.base.files, t.base.files)
    ensures s.base.records == t.base.records && s.base.tools == t.base.tools
    ensures s.usage == t.usage && s.toolRollup == t.toolRollup && s.latency == t.latency
  {
    hide Faithful, UsageTable, ToolTable, LatencyTable, Canonical.Leads, ProjectOf, SessionOf, IsMain;
    SameRows(s.base, t.base, truth);
    SameFlagsSameRows(s, t);
    assert FilesAgree(s.base.files, t.base.files);
    RollupsAgree(s.base.files, t.base.files, s.base.records, s.base.tools);
  }
}
