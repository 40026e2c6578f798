/** What holds over every history of ingest runs, including runs that die after
    persisting some files (backend/ingest.py:301-313, 335-438). */
module IngestHistory {
  import opened Tables
  import opened Plan
  import opened Ingest
  import Canonical
  import Grouping
  import Transcript
  import TranscriptReplies
  import TranscriptTurns

  datatype Event = Run(world: World, version: string, stage: Stage)

  const EMPTY: Store := Store(Base(map[], map[], map[], map[]), map[], map[], map[])

  /** A history of runs, each possible in the state the ones before it left. */
  ghost predicate Feasible(history: seq<Event>)
    decreases |history|, 0
  {
    history != [] ==>
      var last := history[|history| - 1];
      Feasible(history[..|history| - 1])
      && Possible(StateAfter(history[..|history| - 1]), last.world, last.version, last.stage)
  }

  ghost function StateAfter(history: seq<Event>): Store
    requires Feasible(history)
    decreases |history|, 1
  {
    if history == [] then EMPTY
    else
      var last := history[|history| - 1];
      Apply(StateAfter(history[..|history| - 1]), last.world, last.version, last.stage)
  }

  // ------------------------------------------------------------------
  // What every state keeps
  // ------------------------------------------------------------------

  /** A file's project, session and kind are read off its key, and its project is stored. */
  ghost predicate FilesValid(b: Base) {
    forall k | k in b.files ::
      && b.files[k].project == ProjectOf(k) && b.files[k].session == SessionOf(k) && b.files[k].isMain == IsMain(k)
      && b.files[k].project in b.projects
  }

  /** Rows belong to stored files, and a latency comes with a stamp. */
  ghost predicate RowsValid(b: Base) {
    && (forall id | id in b.records :: id.file in b.files)
    && (forall id | id in b.tools :: id.file in b.files)
    && (forall id | id in b.records && b.records[id].record.latency.Some? :: b.records[id].record.ts.Some?)
  }

  ghost predicate Valid(b: Base) {
    FilesValid(b) && RowsValid(b)
  }

  lemma {:induction false} RowsComeFrom(key: Key, rs: seq<Transcript.Record>, id: RecordId)
    requires id in RecordRows(key, rs)
    ensures RecordRows(key, rs)[id].record in rs
  {
    var last := |rs| - 1;
    if id != RecordId(key, rs[last].line) {
      RowsComeFrom(key, rs[..last], id);
    }
  }

  /** Upserts lose no project. */
  lemma ProjectsKept(projects: map<string, Project>, seen: map<string, Project>, ids: set<string>)
    requires ids <= seen.Keys
    ensures ProjectsAfter(projects, seen, ids).Keys == projects.Keys + ids
  {
    hide Merge;
  }

  lemma AfterKeepsFiles(b: Base, w: World, version: string, seen: map<string, Project>, done: set<Key>)
    requires FilesValid(b) && AllWon(w, seen, done)
    ensures FilesValid(After(b, w, version, seen, done))
  {
    var after := After(b, w, version, seen, done);
    ProjectsKept(b.projects, seen, ProjectsOf(done));
    hide RecordsAfter, ToolsAfter, ProjectsAfter, ProjectOf, SessionOf, IsMain;
    forall k | k in after.files
      ensures after.files[k].project in after.projects
    {
      if k in done {
        assert ProjectOf(k) in ProjectsOf(done);
      } else {
        assert after.files[k] == b.files[k];
      }
    }
  }

  lemma AfterKeepsRows(b: Base, w: World, version: string, seen: map<string, Project>, done: set<Key>)
    requires RowsValid(b) && ValidWorld(w) && AllWon(w, seen, done) && done <= Listed(w)
    ensures RowsValid(After(b, w, version, seen, done))
  {
    hide RecordsAfter, ToolsAfter, ProjectsAfter, NewRecords, NewTools, RecordRows, ProjectOf, NewFile, IsWireKey;
    var after := After(b, w, version, seen, done);
    forall id | id in after.records
      ensures id.file in after.files
      ensures after.records[id].record.latency.Some? ==> after.records[id].record.ts.Some?
    {
      RecordAfter(b.records, w, seen, done, id);
      if id.file in done {
        NewRecordTimed(w, id.file, id);
      }
    }
    forall id | id in after.tools
      ensures id.file in after.files
    {
      ToolAfter(b.tools, w, seen, done, id);
    }
  }

  lemma AfterKeepsValid(b: Base, w: World, version: string, seen: map<string, Project>, done: set<Key>)
    requires Valid(b) && ValidWorld(w) && AllWon(w, seen, done) && done <= Listed(w)
    ensures Valid(After(b, w, version, seen, done))
  {
    hide FilesValid, RowsValid, After, AllWon, ValidWorld;
    AfterKeepsFiles(b, w, version, seen, done);
    AfterKeepsRows(b, w, version, seen, done);
  }

  lemma NewRecordTimed(w: World, key: Key, id: RecordId)
    requires ValidWorld(w) && Won(w, key) && key in w.keys && id in NewRecords(w, key)
    ensures NewRecords(w, key)[id].record.latency.Some? ==> NewRecords(w, key)[id].record.ts.Some?
  {
    hide IsWireKey, RecordRows;
    RowsComeFrom(key, w.outcome[key].parsed.records, id);
  }

  lemma MainKeepsValid(b: Base, w: World, version: string)
    requires Valid(b) && ValidWorld(w) && AllWon(w, Seen(w, w.keys), Winners(b, w, version))
    ensures Valid(Main(b, w, version))
  {
    hide IsWireKey, Proper, After, UpsertAll, DeleteOrphaned, Seen, AllWon, Valid, Winners;
    WinnersListed(b, w, version);
    var after := After(b, w, version, Seen(w, w.keys), Winners(b, w, version));
    AfterKeepsValid(b, w, version, Seen(w, w.keys), Winners(b, w, version));
    UpsertKeepsValid(after, Seen(w, w.keys));
    DeleteKeepsValid(UpsertAll(after, Seen(w, w.keys)), Listed(w));
  }

  lemma DeleteKeepsValid(b: Base, listed: set<Key>)
    requires Valid(b)
    ensures Valid(DeleteOrphaned(b, listed))
  {
    hide ProjectOf, SessionOf, IsMain;
  }

  lemma FlagKeepsValid(s: Store)
    requires Valid(s.base)
    ensures Valid(Flag(s).base)
  {
    hide ProjectOf, SessionOf, IsMain, Canonical.Leads;
  }

  lemma ApplyKeepsValid(s: Store, w: World, version: string, stage: Stage)
    requires Valid(s.base) && Possible(s, w, version, stage)
    ensures Valid(Apply(s, w, version, stage).base)
  {
    hide Valid, After, Main, Seen, AllWon, Winners, Canonical.Flagged, UsageTable, ToolTable, LatencyTable,
         UsageRolls, LatencyCollides, NoFatal, IsWireKey, Proper, ProjectsAfter;
    WinnersWon(s.base, w, version, Winners(s.base, w, version));
    WinnersListed(s.base, w, version);
    if stage.DiedFetching? {
      WinnersWon(s.base, w, version, stage.done);
      AfterKeepsValid(s.base, w, version, Seen(w, w.keys), stage.done);
    } else {
      AfterKeepsValid(s.base, w, version, Seen(w, w.keys), Winners(s.base, w, version));
      UpsertKeepsValid(After(s.base, w, version, Seen(w, w.keys), Winners(s.base, w, version)), Seen(w, w.keys));
      MainKeepsValid(s.base, w, version);
      FlagKeepsValid(MainStore(s, w, version));
    }
  }

  lemma UpsertKeepsValid(b: Base, seen: map<string, Project>)
    requires Valid(b)
    ensures Valid(UpsertAll(b, seen))
  {
    ProjectsKept(b.projects, seen, seen.Keys);
    hide ProjectsAfter, ProjectOf, SessionOf, IsMain;
  }

  lemma WinnersListed(b: Base, w: World, version: string)
    ensures Winners(b, w, version) <= Listed(w)
  {
  }

  lemma {:induction false} EveryStateIsValid(history: seq<Event>)
    requires Feasible(history)
    ensures Valid(StateAfter(history).base)
  {
    if history != [] {
      var last := history[|history| - 1];
      EveryStateIsValid(history[..|history| - 1]);
      hide Possible, Apply, Valid;
      ApplyKeepsValid(StateAfter(history[..|history| - 1]), last.world, last.version, last.stage);
    }
  }

  /** In every reachable state a transcript under a subagents folder is stored as not
      main, and any other as main. */
  lemma KindIsStored(history: seq<Event>, key: Key)
    requires Feasible(history) && key in StateAfter(history).base.files
    ensures StateAfter(history).base.files[key].isMain <==> !exists i: nat :: OccursAt(key, "/subagents/", i)
  {
    EveryStateIsValid(history);
    IsMainExactly(key);
    hide StateAfter, IsMain, ProjectOf, SessionOf;
  }

  /** So records of a session's own transcript and of its subagents' never share a group
      of the usage relation, whatever their hour and model. */
  lemma KindsNeverShareGroup(history: seq<Event>, i: RecordId, j: RecordId)
    requires Feasible(history)
    requires var b := StateAfter(history).base;
      i in UsageRows(b.files, b.records) && j in UsageRows(b.files, b.records)
    requires exists n: nat :: OccursAt(i.file, "/subagents/", n)
    requires !exists n: nat :: OccursAt(j.file, "/subagents/", n)
    ensures var b := StateAfter(history).base;
      var x, y := UsageRows(b.files, b.records)[i].group, UsageRows(b.files, b.records)[j].group;
      !SameUsageKey(x, y)
  {
    KindIsStored(history, i.file);
    KindIsStored(history, j.file);
    hide StateAfter, Feasible, OccursAt, ModelName, Trunc;
  }

  // ------------------------------------------------------------------
  // Derived state after a finished run
  // ------------------------------------------------------------------

  /** Everything derived is the function of the current rows that defines it. */
  ghost predicate Consistent(s: Store) {
    && (forall id | id in s.base.records :: s.base.records[id].canonical <==> Canonical.Leads(s.base.records, id))
    && s.usage == UsageTable(s.base.files, s.base.records)
    && s.toolRollup == ToolTable(s.base.files, s.base.tools)
    && s.latency == LatencyTable(s.base.files, s.base.records)
  }

  lemma FinishedIsConsistent(s: Store)
    ensures Consistent(RollLatency(RollTools(Roll(Flag(s)))))
  {
    hide UsageTable, ToolTable, LatencyTable, Canonical.Leads;
    Canonical.SecondPassIsIdle(s.base.records);
    var flagged := Canonical.Flagged(s.base.records);
    forall id | id in flagged
      ensures flagged[id].canonical <==> Canonical.Leads(flagged, id)
    {
      assert Canonical.Flagged(flagged)[id] == flagged[id];
    }
  }

  /** After any history, runs that died halfway included, a run that finishes leaves
      the flags and all three rollups equal to the functions of the rows now stored. */
  lemma FinishedRunLeavesConsistency(history: seq<Event>)
    requires Feasible(history) && history != [] && history[|history| - 1].stage.Finished?
    ensures Consistent(StateAfter(history))
  {
    hide Consistent, Apply, Possible;
    var last := history[|history| - 1];
    FinishedApplies(StateAfter(history[..|history| - 1]), last.world, last.version);
  }

  lemma FinishedApplies(s: Store, w: World, version: string)
    requires Possible(s, w, version, Finished)
    ensures Consistent(Apply(s, w, version, Finished))
  {
    hide Consistent, Main, Seen, AllWon, Winners, NoFatal, UsageRolls, LatencyCollides, Canonical.Flagged,
         UsageTable, ToolTable, LatencyTable;
    FinishedIsConsistent(MainStore(s, w, version));
  }

  /** Two histories that end finished with the same rows end with the same derived state. */
  lemma HistoryIsForgotten(a: seq<Event>, b: seq<Event>)
    requires Feasible(a) && a != [] && a[|a| - 1].stage.Finished?
    requires Feasible(b) && b != [] && b[|b| - 1].stage.Finished?
    requires StateAfter(a).base.files == StateAfter(b).base.files
        && StateAfter(a).base.tools == StateAfter(b).base.tools
    requires Canonical.Raw(StateAfter(a).base.records) == Canonical.Raw(StateAfter(b).base.records)
    ensures StateAfter(a).base.records == StateAfter(b).base.records
    ensures StateAfter(a).usage == StateAfter(b).usage && StateAfter(a).toolRollup == StateAfter(b).toolRollup
    ensures StateAfter(a).latency == StateAfter(b).latency
  {
    FinishedRunLeavesConsistency(a);
    FinishedRunLeavesConsistency(b);
    hide StateAfter, Feasible;
    SameFlagsSameRows(StateAfter(a), StateAfter(b));
  }

  lemma SameFlagsSameRows(s: Store, t: Store)
    requires Consistent(s) && Consistent(t) && Canonical.Raw(s.base.records) == Canonical.Raw(t.base.records)
    ensures s.base.records == t.base.records
  {
    hide Canonical.Leads, UsageTable, ToolTable, LatencyTable;
    Canonical.FlagsDependOnRows(s.base.records, t.base.records);
    assert Canonical.Flagged(s.base.records) == s.base.records;
    assert Canonical.Flagged(t.base.records) == t.base.records;
  }

  // ------------------------------------------------------------------
  // When the rebuilds can finish
  // ------------------------------------------------------------------

  /** Two counted records that share the rollup's primary key but not the project. */
  ghost predicate Clash(b: Base, i: RecordId, j: RecordId) {
    && Counted(b.files, b.records, i) && Counted(b.files, b.records, j)
    && SameUsageKey(UsageRows(b.files, b.records)[i].group, UsageRows(b.files, b.records)[j].group)
    && b.files[i.file].project != b.files[j.file].project
  }

  /** The usage rebuild violates its primary key exactly when some two records clash. */
  lemma RollFailsExactlyOnClash(b: Base)
    ensures UsageRolls(b) <==> forall i, j | i in b.records && j in b.records :: !Clash(b, i, j)
  {
    hide ModelName;
    var rows := UsageRows(b.files, b.records);
    if UsageRolls(b) {
      forall i, j | i in b.records && j in b.records
        ensures !Clash(b, i, j)
      {
        if i in rows && j in rows {
          assert rows[i].group in Grouping.Labels(rows) && rows[j].group in Grouping.Labels(rows);
        }
      }
    }
    if forall i, j | i in b.records && j in b.records :: !Clash(b, i, j) {
      forall x, y | x in Grouping.Labels(rows) && y in Grouping.Labels(rows) && SameUsageKey(x, y)
        ensures x == y
      {
        var i :| i in rows && rows[i].group == x;
        var j :| j in rows && rows[j].group == y;
        assert !Clash(b, i, j);
      }
    }
  }

  /** The main transcripts of a session id are in one project, and so are its subagents'. */
  ghost predicate OneProject(keys: set<Key>) {
    forall a, b | a in keys && b in keys && SessionOf(a) == SessionOf(b) && IsMain(a) == IsMain(b) ::
      ProjectOf(a) == ProjectOf(b)
  }

  ghost predicate NamedProjects(keys: set<Key>) {
    forall k | k in keys :: ProjectOf(k) != ""
  }

  lemma NoClash(b: Base, keys: set<Key>, i: RecordId, j: RecordId)
    requires Valid(b) && b.files.Keys <= keys && OneProject(keys)
    ensures !Clash(b, i, j)
  {
    hide ProjectOf, SessionOf, IsMain, ModelName;
    var rows := UsageRows(b.files, b.records);
    if i in rows && j in rows {
      assert rows[i].group.session == SessionOf(i.file) && rows[i].group.isMain == IsMain(i.file);
      assert rows[j].group.session == SessionOf(j.file) && rows[j].group.isMain == IsMain(j.file);
    }
  }

  lemma OneProjectNeverClashes(b: Base, keys: set<Key>)
    requires Valid(b) && b.files.Keys <= keys && OneProject(keys) && NamedProjects(keys)
    ensures UsageRolls(b) && !LatencyCollides(b)
  {
    hide ProjectOf, SessionOf, IsMain, ModelName;
    RollFailsExactlyOnClash(b);
    hide UsageRolls, Clash;
    forall i, j | i in b.records && j in b.records
      ensures !Clash(b, i, j)
    {
      NoClash(b, keys, i, j);
    }
  }

  /** While no session has transcripts of one kind in two projects, and no project id is
      empty, a run no fetch is fatal to always gets to the end, whatever went before. */
  lemma NonFatalRunFinishes(s: Store, w: World, version: string)
    requires Valid(s.base) && ValidWorld(w) && NoFatal(s.base, w, version)
    requires OneProject(Listed(w)) && NamedProjects(Listed(w))
    ensures RebuildStage(Flag(MainStore(s, w, version)).base) == Finished
    ensures Possible(s, w, version, Finished)
  {
    hide UsageRolls, LatencyCollides, Valid, OneProject, NamedProjects, ValidWorld, Seen, AllWon;
    WinnersWon(s.base, w, version, Winners(s.base, w, version));
    MainKeepsValid(s.base, w, version);
    FlagKeepsValid(MainStore(s, w, version));
    OneProjectNeverClashes(Flag(MainStore(s, w, version)).base, Listed(w));
  }

  // ------------------------------------------------------------------
  // What is left over
  // ------------------------------------------------------------------

  /** After the main pass every stored file was listed. */
  lemma StoredWereListed(b: Base, w: World, version: string)
    requires ValidWorld(w) && AllWon(w, Seen(w, w.keys), Winners(b, w, version))
    ensures Main(b, w, version).files.Keys <= Listed(w)
  {
  }

  predicate Current(files: map<Key, FileRow>, w: World, version: string, key: Key) {
    key in files && key in w.meta && files[key].etag == w.meta[key].etag && files[key].version == version
  }

  lemma MainFile(b: Base, w: World, version: string, key: Key)
    requires ValidWorld(w) && AllWon(w, Seen(w, w.keys), Winners(b, w, version)) && key in Listed(w)
    ensures var files := Main(b, w, version).files;
            if key in Winners(b, w, version) then key in files && files[key] == NewFile(w, version, key)
            else (key in files <==> key in b.files) && (key in files ==> files[key] == b.files[key])
  {
    hide RecordsAfter, ToolsAfter, ProjectsAfter, Seen, NewFile, Winners, IsWireKey, Proper;
  }

  /** A persisted file's row carries what the listing and the parse say of it. */
  lemma PersistedRow(b: Base, w: World, version: string, key: Key)
    requires ValidWorld(w) && AllWon(w, Seen(w, w.keys), Winners(b, w, version)) && key in Winners(b, w, version)
    ensures key in Main(b, w, version).files && key in w.meta && key in w.outcome && w.outcome[key].Parsed?
    ensures var row := Main(b, w, version).files[key];
      && row.etag == w.meta[key].etag && row.modified == w.meta[key].modified && row.version == version
      && row.ctxTurns == w.outcome[key].parsed.ctxTurns
      && row.project == ProjectOf(key) && row.session == SessionOf(key) && row.isMain == IsMain(key)
  {
    MainFile(b, w, version, key);
    hide Main, Seen, AllWon, IsWireKey, Proper, ProjectOf, SessionOf, IsMain, NeedsWork;
  }

  lemma MainRecord(b: Base, w: World, version: string, id: RecordId)
    requires ValidWorld(w) && AllWon(w, Seen(w, w.keys), Winners(b, w, version)) && id.file in Listed(w)
    ensures var records := Main(b, w, version).records;
            if id.file in Winners(b, w, version)
            then (id in records <==> id in NewRecords(w, id.file))
                && (id in records ==> records[id] == NewRecords(w, id.file)[id])
            else (id in records <==> id in b.records) && (id in records ==> records[id] == b.records[id])
  {
    hide RecordsAfter, ToolsAfter, ProjectsAfter, FilesAfter, Seen, Winners, NewRecords, IsWireKey, Proper;
    RecordAfter(b.records, w, Seen(w, w.keys), Winners(b, w, version), id);
  }

  /** A listed key ends current, or its fetch failed or its format is unsupported and
      whatever was stored for it, row and records, is as it was. */
  lemma ListedKeyIsCurrentOrUntouched(b: Base, w: World, version: string, key: Key, id: RecordId)
    requires ValidWorld(w) && AllWon(w, Seen(w, w.keys), Winners(b, w, version)) && NoFatal(b, w, version)
    requires key in Listed(w) && id.file == key
    ensures var after := Main(b, w, version);
      || Current(after.files, w, version, key)
      || (&& (w.outcome[key].Failed? || w.outcome[key].Unsupported?)
          && (key in after.files <==> key in b.files) && (key in b.files ==> after.files[key] == b.files[key])
          && (id in after.records <==> id in b.records) && (id in b.records ==> after.records[id] == b.records[id]))
  {
    MainFile(b, w, version, key);
    MainRecord(b, w, version, id);
    hide Main, Seen, IsWireKey, Proper, AllWon, NewRecords, ProjectOf, SessionOf, IsMain;
  }

  /** A later run over the same bucket plans exactly the due keys that were not won. */
  lemma RerunPlansLeftovers(b: Base, w: World, version: string, again: World)
    requires ValidWorld(w) && AllWon(w, Seen(w, w.keys), Winners(b, w, version))
    requires again.keys == w.keys && again.meta == w.meta
    ensures Due(Main(b, w, version).files, again, version) == Due(b.files, w, version) - Winners(b, w, version)
  {
    hide Main, Seen, IsWireKey, Proper, AllWon, ProjectOf, SessionOf, IsMain;
    var files := Main(b, w, version).files;
    forall k | k in w.keys
      ensures k in Due(files, again, version) <==> k in Due(b.files, w, version) && k !in Winners(b, w, version)
    {
      MainFile(b, w, version, k);
    }
  }

  /** Once nothing is left over, later runs over the same bucket insert, reparse and
      delete nothing and leave files, records and tool calls as they are. */
  lemma SettledBucketStaysSettled(b: Base, w: World, version: string)
    requires ValidWorld(w) && Due(b.files, w, version) == {} && b.files.Keys <= Listed(w) && Valid(b)
    ensures !CountsOf(b, w, version).DataChanged()
    ensures AllWon(w, Seen(w, w.keys), Winners(b, w, version))
    ensures var after := Main(b, w, version);
            after.files == b.files && after.records == b.records && after.tools == b.tools
  {
    hide Seen, IsWireKey, Proper, ProjectOf, SessionOf, IsMain, ProjectsAfter, KindOf, NeedsWork;
    WinnersWon(b, w, version, Winners(b, w, version));
    assert Winners(b, w, version) == {};
    NothingAfter(b, w, version, Seen(w, w.keys));
    assert forall kind :: OfKind(b.files, w, {}, kind) == {};
    assert b.files.Keys - Listed(w) == {};
    hide After;
    OnlyListed(b, Listed(w));
  }

  lemma OnlyListed(b: Base, listed: set<Key>)
    requires b.files.Keys <= listed && Valid(b)
    ensures DeleteOrphaned(b, listed) == b
  {
    hide ProjectOf, SessionOf, IsMain;
    assert DeleteOrphaned(b, listed).files == b.files;
    assert DeleteOrphaned(b, listed).records == b.records;
    assert DeleteOrphaned(b, listed).tools == b.tools;
  }

  /** A run that dies after its last fetch reports nothing, and the run that picks its
      files up reports no data change either: `data_changed` is not the same as the
      tables having changed since the last finished run. */
  lemma DeadRunHidesItsFiles(s: Store, w: World, version: string)
    requires Valid(s.base) && ValidWorld(w) && s.base.files.Keys <= Listed(w)
    requires Due(s.base.files, w, version) == Winners(s.base, w, version) != {}
    ensures Possible(s, w, version, DiedFetching(Winners(s.base, w, version)))
    ensures var dead := Apply(s, w, version, DiedFetching(Winners(s.base, w, version)));
            && dead.base.files != s.base.files && dead.usage == s.usage
            && NoFatal(dead.base, w, version) && !CountsOf(dead.base, w, version).DataChanged()
  {
    hide Seen, IsWireKey, Proper, ProjectOf, SessionOf, IsMain, After, Due, Winners, Valid, CountsOf, UsageRolls;
    var won := Winners(s.base, w, version);
    WinnersWon(s.base, w, version, won);
    WinnersListed(s.base, w, version);
    AfterKeepsValid(s.base, w, version, Seen(w, w.keys), won);
    WonFilesAreCurrent(s.base, w, version);
    SettledBucketStaysSettled(After(s.base, w, version, Seen(w, w.keys), won), w, version);
  }

  lemma WonFilesAreCurrent(b: Base, w: World, version: string)
    requires ValidWorld(w) && AllWon(w, Seen(w, w.keys), Winners(b, w, version))
    requires b.files.Keys <= Listed(w) && Due(b.files, w, version) == Winners(b, w, version) != {}
    ensures var files := After(b, w, version, Seen(w, w.keys), Winners(b, w, version)).files;
            && Due(files, w, version) == {} && files.Keys <= Listed(w) && files != b.files
  {
    hide Seen, IsWireKey, Proper, ProjectOf, SessionOf, IsMain, ProjectsAfter, RecordsAfter, ToolsAfter;
    var files := FilesAfter(b.files, w, version, Seen(w, w.keys), Winners(b, w, version));
    var k :| k in Winners(b, w, version);
    assert files[k] == NewFile(w, version, k);
  }

  // ------------------------------------------------------------------
  // The parser delivers what the tables need
  // ------------------------------------------------------------------

  lemma {:induction false} AscendingApart(records: seq<Transcript.Record>, top: nat, i: nat, j: nat)
    requires TranscriptTurns.Ascending(records, top) && i < j < |records|
    ensures records[i].line < records[j].line
    decreases |records|
  {
    var last := |records| - 1;
    if j == last {
      TranscriptTurns.AllWithin(records[..last], records[last].line - 1, records[i]);
    } else {
      AscendingApart(records[..last], records[last].line - 1, i, j);
    }
  }

  lemma {:induction false} LatencyIsStamped(format: Transcript.Format, key: string, lines: seq<Transcript.Line>)
    ensures forall r | r in Transcript.Run(format, key, lines).records && r.latency.Some? :: r.ts.Some?
  {
    if lines != [] {
      var before := Transcript.Run(format, key, lines[..|lines| - 1]);
      LatencyIsStamped(format, key, lines[..|lines| - 1]);
      TranscriptReplies.StepRecords(before, format, key, lines[|lines| - 1]);
      hide Transcript.Step;
    }
  }

  /** Every parse of a numbered transcript is proper: its rows fit the tables' keys. */
  lemma ParsesAreProper(format: Transcript.Format, key: string, lines: seq<Transcript.Line>, total: nat,
                        parsed: Transcript.Parsed)
    requires TranscriptTurns.Numbered(lines) && Transcript.Parses(format, key, lines, total, parsed)
    ensures Proper(parsed)
  {
    hide Transcript.Run, Transcript.RowsFor, Transcript.Picked, Transcript.FinishedTurns;
    var s := Transcript.Run(format, key, lines);
    TranscriptTurns.RunKeepsInv(format, key, lines);
    LatencyIsStamped(format, key, lines);
    TranscriptReplies.RunTools(format, key, lines);
    forall i, j | 0 <= i < j < |parsed.records|
      ensures parsed.records[i].line < parsed.records[j].line
    {
      AscendingApart(s.records, TranscriptTurns.Top(lines), i, j);
    }
  }
}
