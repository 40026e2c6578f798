/** One ingest run over the tables (backend/ingest.py): per-file transactions, the
    main pass, and the rebuilds of everything derived. */
module Ingest {
  import opened Wrappers
  import opened Tables
  import opened Plan
  import Canonical
  import Grouping
  import Transcript

  // ------------------------------------------------------------------
  // One file, one transaction
  // ------------------------------------------------------------------

  function NewFile(w: World, version: string, key: Key): FileRow
    requires Won(w, key)
  {
    FileRow(ProjectOf(key), SessionOf(key), IsMain(key), w.meta[key].etag, version, w.meta[key].modified,
            w.outcome[key].parsed.ctxTurns)
  }

  /** Fetched and parsed: the file will be persisted. */
  predicate Won(w: World, key: Key) {
    key in w.meta && key in w.outcome && w.outcome[key].Parsed?
  }

  /** Inserted rows start with the column's default flag. */
  function RecordRows(key: Key, rs: seq<Transcript.Record>): (rows: map<RecordId, Stored>)
    ensures forall id | id in rows :: id.file == key
  {
    if rs == [] then map[]
    else
      var r := rs[|rs| - 1];
      RecordRows(key, rs[..|rs| - 1])[RecordId(key, r.line) := Stored(r, true)]
  }

  function ToolUseRows(key: Key, ts: seq<Transcript.ToolUse>): (rows: map<ToolId, Transcript.ToolUse>)
    ensures forall id | id in rows :: id.file == key
  {
    if ts == [] then map[]
    else
      var t := ts[|ts| - 1];
      ToolUseRows(key, ts[..|ts| - 1])[ToolId(key, t.line, t.idx) := t]
  }

  function NewRecords(w: World, key: Key): (rows: map<RecordId, Stored>)
    requires Won(w, key)
    ensures forall id | id in rows :: id.file == key
  {
    RecordRows(key, w.outcome[key].parsed.records)
  }

  function NewTools(w: World, key: Key): (rows: map<ToolId, Transcript.ToolUse>)
    requires Won(w, key)
    ensures forall id | id in rows :: id.file == key
  {
    ToolUseRows(key, w.outcome[key].parsed.tools)
  }

  /** ON CONFLICT DO UPDATE: newest name, least first, greatest last. */
  function Merge(known: Option<Project>, p: Project): Project {
    if known.None? then p
    else Project(p.name, Grouping.Min(known.value.firstSeen, p.firstSeen),
                 Grouping.Max(known.value.lastSeen, p.lastSeen))
  }

  function Upsert(projects: map<string, Project>, id: string, p: Project): map<string, Project> {
    projects[id := Merge(if id in projects then Some(projects[id]) else None, p)]
  }

  function RecordsElsewhere(records: map<RecordId, Stored>, key: Key): map<RecordId, Stored> {
    map id | id in records && id.file != key :: records[id]
  }

  function ToolsElsewhere(tools: map<ToolId, Transcript.ToolUse>, key: Key): map<ToolId, Transcript.ToolUse> {
    map id | id in tools && id.file != key :: tools[id]
  }

  function PersistOne(b: Base, w: World, version: string, seen: map<string, Project>, key: Key): Base
    requires Won(w, key) && ProjectOf(key) in seen
  {
    Base(b.files[key := NewFile(w, version, key)],
         RecordsElsewhere(b.records, key) + NewRecords(w, key),
         ToolsElsewhere(b.tools, key) + NewTools(w, key),
         Upsert(b.projects, ProjectOf(key), seen[ProjectOf(key)]))
  }

  // ------------------------------------------------------------------
  // Any set of files, in closed form
  // ------------------------------------------------------------------

  predicate AllWon(w: World, seen: map<string, Project>, done: set<Key>) {
    forall k | k in done :: Won(w, k) && ProjectOf(k) in seen
  }

  function FilesAfter(files: map<Key, FileRow>, w: World, version: string, seen: map<string, Project>,
                      done: set<Key>): map<Key, FileRow>
    requires AllWon(w, seen, done)
  {
    map k | k in files.Keys + done :: if k in done then NewFile(w, version, k) else files[k]
  }

  function RecordsAfter(records: map<RecordId, Stored>, w: World, seen: map<string, Project>,
                        done: set<Key>): map<RecordId, Stored>
    requires AllWon(w, seen, done)
  {
    map id | id in (set i | i in records && i.file !in done) + (set k, i | k in done && i in NewRecords(w, k) :: i) ::
      if id.file in done then NewRecords(w, id.file)[id] else records[id]
  }

  function ToolsAfter(tools: map<ToolId, Transcript.ToolUse>, w: World, seen: map<string, Project>,
                      done: set<Key>): map<ToolId, Transcript.ToolUse>
    requires AllWon(w, seen, done)
  {
    map id | id in (set i | i in tools && i.file !in done) + (set k, i | k in done && i in NewTools(w, k) :: i) ::
      if id.file in done then NewTools(w, id.file)[id] else tools[id]
  }

  /** The projects table after upserting these projects, any number of times each. */
  function ProjectsAfter(projects: map<string, Project>, seen: map<string, Project>, ids: set<string>)
    : map<string, Project>
    requires ids <= seen.Keys
  {
    map p | p in projects.Keys + ids ::
      if p in ids then Merge(if p in projects then Some(projects[p]) else None, seen[p]) else projects[p]
  }

  function ProjectsOf(keys: set<Key>): set<string> {
    set k | k in keys :: ProjectOf(k)
  }

  function After(b: Base, w: World, version: string, seen: map<string, Project>, done: set<Key>): Base
    requires AllWon(w, seen, done)
  {
    Base(FilesAfter(b.files, w, version, seen, done), RecordsAfter(b.records, w, seen, done),
         ToolsAfter(b.tools, w, seen, done), ProjectsAfter(b.projects, seen, ProjectsOf(done)))
  }

  /** What the closed form holds at one key: a done file's new rows, else the old row. */
  lemma RecordAfter(records: map<RecordId, Stored>, w: World, seen: map<string, Project>, done: set<Key>, id: RecordId)
    requires AllWon(w, seen, done)
    ensures id in RecordsAfter(records, w, seen, done)
       <==> if id.file in done then id in NewRecords(w, id.file) else id in records
    ensures id in RecordsAfter(records, w, seen, done) ==>
      RecordsAfter(records, w, seen, done)[id] == if id.file in done then NewRecords(w, id.file)[id] else records[id]
  {
    hide ProjectOf, Won, RecordRows;
  }

  lemma ToolAfter(tools: map<ToolId, Transcript.ToolUse>, w: World, seen: map<string, Project>, done: set<Key>,
                  id: ToolId)
    requires AllWon(w, seen, done)
    ensures id in ToolsAfter(tools, w, seen, done)
       <==> if id.file in done then id in NewTools(w, id.file) else id in tools
    ensures id in ToolsAfter(tools, w, seen, done) ==>
      ToolsAfter(tools, w, seen, done)[id] == if id.file in done then NewTools(w, id.file)[id] else tools[id]
  {
    hide ProjectOf, Won, ToolUseRows;
  }

  lemma NoRecordsAfter(records: map<RecordId, Stored>, w: World, seen: map<string, Project>)
    ensures RecordsAfter(records, w, seen, {}) == records
  {
    hide RecordsAfter;
    forall id
      ensures id in RecordsAfter(records, w, seen, {}) <==> id in records
      ensures id in records ==> RecordsAfter(records, w, seen, {})[id] == records[id]
    {
      RecordAfter(records, w, seen, {}, id);
    }
  }

  lemma NoToolsAfter(tools: map<ToolId, Transcript.ToolUse>, w: World, seen: map<string, Project>)
    ensures ToolsAfter(tools, w, seen, {}) == tools
  {
    hide ToolsAfter;
    forall id
      ensures id in ToolsAfter(tools, w, seen, {}) <==> id in tools
      ensures id in tools ==> ToolsAfter(tools, w, seen, {})[id] == tools[id]
    {
      ToolAfter(tools, w, seen, {}, id);
    }
  }

  lemma NothingAfter(b: Base, w: World, version: string, seen: map<string, Project>)
    ensures After(b, w, version, seen, {}) == b
  {
    NoRecordsAfter(b.records, w, seen);
    NoToolsAfter(b.tools, w, seen);
    hide RecordsAfter, ToolsAfter, Merge, NewFile;
    assert FilesAfter(b.files, w, version, seen, {}) == b.files;
    assert ProjectsAfter(b.projects, seen, {}) == b.projects;
  }

  lemma RecordStepAt(records: map<RecordId, Stored>, w: World, seen: map<string, Project>, done: set<Key>, k: Key,
                     id: RecordId)
    requires AllWon(w, seen, done + {k}) && AllWon(w, seen, done) && Won(w, k) && k !in done
    ensures var left := RecordsAfter(records, w, seen, done + {k});
            var right := RecordsElsewhere(RecordsAfter(records, w, seen, done), k) + NewRecords(w, k);
            (id in left <==> id in right) && (id in left ==> left[id] == right[id])
  {
    hide RecordsAfter, NewRecords, AllWon, Won;
    RecordAfter(records, w, seen, done + {k}, id);
    RecordAfter(records, w, seen, done, id);
  }

  lemma SameEntries<K, V>(a: map<K, V>, b: map<K, V>)
    requires forall k :: (k in a <==> k in b) && (k in a ==> a[k] == b[k])
    ensures a == b
  {
  }

  lemma RecordsStep(records: map<RecordId, Stored>, w: World, seen: map<string, Project>, done: set<Key>, k: Key)
    requires AllWon(w, seen, done + {k}) && k !in done
    ensures AllWon(w, seen, done) && Won(w, k)
    ensures RecordsAfter(records, w, seen, done + {k})
         == RecordsElsewhere(RecordsAfter(records, w, seen, done), k) + NewRecords(w, k)
  {
    StillWon(w, seen, done, k);
    hide *;
    var left := RecordsAfter(records, w, seen, done + {k});
    var right := RecordsElsewhere(RecordsAfter(records, w, seen, done), k) + NewRecords(w, k);
    forall id
      ensures (id in left <==> id in right) && (id in left ==> left[id] == right[id])
    {
      RecordStepAt(records, w, seen, done, k, id);
    }
    SameEntries(left, right);
  }

  lemma ToolStepAt(tools: map<ToolId, Transcript.ToolUse>, w: World, seen: map<string, Project>, done: set<Key>,
                   k: Key, id: ToolId)
    requires AllWon(w, seen, done + {k}) && AllWon(w, seen, done) && Won(w, k) && k !in done
    ensures var left := ToolsAfter(tools, w, seen, done + {k});
            var right := ToolsElsewhere(ToolsAfter(tools, w, seen, done), k) + NewTools(w, k);
            (id in left <==> id in right) && (id in left ==> left[id] == right[id])
  {
    hide ToolsAfter, NewTools, AllWon, Won;
    ToolAfter(tools, w, seen, done + {k}, id);
    ToolAfter(tools, w, seen, done, id);
  }

  lemma ToolsStep(tools: map<ToolId, Transcript.ToolUse>, w: World, seen: map<string, Project>, done: set<Key>, k: Key)
    requires AllWon(w, seen, done + {k}) && k !in done
    ensures AllWon(w, seen, done) && Won(w, k)
    ensures ToolsAfter(tools, w, seen, done + {k})
         == ToolsElsewhere(ToolsAfter(tools, w, seen, done), k) + NewTools(w, k)
  {
    StillWon(w, seen, done, k);
    hide *;
    var left := ToolsAfter(tools, w, seen, done + {k});
    var right := ToolsElsewhere(ToolsAfter(tools, w, seen, done), k) + NewTools(w, k);
    forall id
      ensures (id in left <==> id in right) && (id in left ==> left[id] == right[id])
    {
      ToolStepAt(tools, w, seen, done, k, id);
    }
    SameEntries(left, right);
  }

  lemma FilesStep(files: map<Key, FileRow>, w: World, version: string, seen: map<string, Project>, done: set<Key>,
                  k: Key)
    requires AllWon(w, seen, done + {k}) && AllWon(w, seen, done) && Won(w, k)
    ensures FilesAfter(files, w, version, seen, done + {k})
         == FilesAfter(files, w, version, seen, done)[k := NewFile(w, version, k)]
  {
    hide NewFile, Won, AllWon;
  }

  lemma MergeAgain(o: Option<Project>, p: Project)
    ensures Merge(Some(Merge(o, p)), p) == Merge(o, p)
  {
  }

  lemma ProjectsStep(projects: map<string, Project>, seen: map<string, Project>, ids: set<string>, p: string)
    requires ids <= seen.Keys && p in seen
    ensures ProjectsAfter(projects, seen, ids + {p}) == Upsert(ProjectsAfter(projects, seen, ids), p, seen[p])
  {
    MergeAgain(if p in projects then Some(projects[p]) else None, seen[p]);
    hide Merge;
  }

  /** Persisting one more file is one more element of the closed form: the order in
      which files are persisted does not matter. */
  lemma AfterStep(b: Base, w: World, version: string, seen: map<string, Project>, done: set<Key>, k: Key)
    requires AllWon(w, seen, done + {k}) && k !in done
    ensures AllWon(w, seen, done)
    ensures After(b, w, version, seen, done + {k}) == PersistOne(After(b, w, version, seen, done), w, version, seen, k)
  {
    hide NewFile, Won, ProjectOf, NewRecords, NewTools, FilesAfter, RecordsAfter, ToolsAfter, ProjectsAfter,
         RecordsElsewhere, ToolsElsewhere, Upsert;
    StillWon(w, seen, done, k);
    RecordsStep(b.records, w, seen, done, k);
    ToolsStep(b.tools, w, seen, done, k);
    FilesStep(b.files, w, version, seen, done, k);
    assert ProjectsOf(done + {k}) == ProjectsOf(done) + {ProjectOf(k)};
    ProjectsStep(b.projects, seen, ProjectsOf(done), ProjectOf(k));
  }

  lemma StillWon(w: World, seen: map<string, Project>, done: set<Key>, k: Key)
    requires AllWon(w, seen, done + {k})
    ensures AllWon(w, seen, done) && Won(w, k) && ProjectOf(k) in seen
  {
    assert k in done + {k};
  }

  // ------------------------------------------------------------------
  // The main pass
  // ------------------------------------------------------------------

  function Winners(b: Base, w: World, version: string): set<Key> {
    set k | k in Due(b.files, w, version) && Won(w, k)
  }

  function DeleteOrphaned(b: Base, listed: set<Key>): Base {
    Base(map k | k in b.files && k in listed :: b.files[k],
         map id | id in b.records && id.file in listed :: b.records[id],
         map id | id in b.tools && id.file in listed :: b.tools[id],
         b.projects)
  }

  function UpsertAll(b: Base, seen: map<string, Project>): Base {
    b.(projects := ProjectsAfter(b.projects, seen, seen.Keys))
  }

  /** The unconditional upsert of every seen project absorbs the per-file ones. */
  lemma UpsertsAbsorbed(projects: map<string, Project>, seen: map<string, Project>, ids: set<string>)
    requires ids <= seen.Keys
    ensures ProjectsAfter(ProjectsAfter(projects, seen, ids), seen, seen.Keys)
        == ProjectsAfter(projects, seen, seen.Keys)
  {
    forall p | p in seen
      ensures Merge(Some(Merge(if p in projects then Some(projects[p]) else None, seen[p])), seen[p])
           == Merge(if p in projects then Some(projects[p]) else None, seen[p])
    {
      MergeAgain(if p in projects then Some(projects[p]) else None, seen[p]);
    }
    hide Merge;
  }

  lemma WinnersWon(b: Base, w: World, version: string, done: set<Key>)
    requires ValidWorld(w) && done <= Winners(b, w, version)
    ensures AllWon(w, Seen(w, w.keys), done)
  {
    hide Seen, SpansProject, ProjectOf, IsWireKey, Proper;
    SeenSpans(w, |w.keys|);
    assert w.keys[..|w.keys|] == w.keys;
  }

  function Main(b: Base, w: World, version: string): Base
    requires forall k | k in w.keys :: k in w.meta
    requires AllWon(w, Seen(w, w.keys), Winners(b, w, version))
  {
    DeleteOrphaned(UpsertAll(After(b, w, version, Seen(w, w.keys), Winners(b, w, version)), Seen(w, w.keys)), Listed(w))
  }

  datatype Counts = Counts(listed: nat, inserted: nat, reparsed: nat, deleted: nat, skipped: nat, failed: nat) {
    predicate DataChanged() {
      inserted > 0 || reparsed > 0 || deleted > 0
    }
  }

  const NO_COUNTS: Counts := Counts(0, 0, 0, 0, 0, 0)

  datatype Progress = Progress(inserted: nat, reparsed: nat, skipped: nat, failed: nat)

  /** What persisting one item counts as. */
  datatype Kind = Inserted | Reparsed | Skipped | Failing | Uncounted

  function KindOf(files: map<Key, FileRow>, w: World, k: Key): Kind {
    if Won(w, k) then (if k in files then Reparsed else Inserted)
    else if k in w.outcome && w.outcome[k].Unsupported? then Skipped
    else if k in w.outcome && w.outcome[k].Failed? then Failing
    else Uncounted
  }

  function OfKind(files: map<Key, FileRow>, w: World, keys: set<Key>, kind: Kind): set<Key> {
    set k | k in keys && KindOf(files, w, k) == kind
  }

  function ProgressOf(files: map<Key, FileRow>, w: World, keys: set<Key>): Progress {
    Progress(|OfKind(files, w, keys, Inserted)|, |OfKind(files, w, keys, Reparsed)|,
             |OfKind(files, w, keys, Skipped)|, |OfKind(files, w, keys, Failing)|)
  }

  function Bump(p: Progress, kind: Kind): Progress {
    match kind
    case Inserted => p.(inserted := p.inserted + 1)
    case Reparsed => p.(reparsed := p.reparsed + 1)
    case Skipped => p.(skipped := p.skipped + 1)
    case Failing => p.(failed := p.failed + 1)
    case Uncounted => p
  }

  lemma KindGrows(files: map<Key, FileRow>, w: World, keys: set<Key>, k: Key, kind: Kind)
    requires k !in keys
    ensures |OfKind(files, w, keys + {k}, kind)|
         == |OfKind(files, w, keys, kind)| + if KindOf(files, w, k) == kind then 1 else 0
  {
    hide KindOf;
    assert OfKind(files, w, keys + {k}, kind)
        == OfKind(files, w, keys, kind) + if KindOf(files, w, k) == kind then {k} else {};
  }

  lemma ProgressGrows(files: map<Key, FileRow>, w: World, keys: set<Key>, k: Key)
    requires k !in keys
    ensures ProgressOf(files, w, keys + {k}) == Bump(ProgressOf(files, w, keys), KindOf(files, w, k))
  {
    hide KindOf, OfKind;
    KindGrows(files, w, keys, k, Inserted);
    KindGrows(files, w, keys, k, Reparsed);
    KindGrows(files, w, keys, k, Skipped);
    KindGrows(files, w, keys, k, Failing);
  }

  function CountsOf(b: Base, w: World, version: string): Counts {
    var p := ProgressOf(b.files, w, Due(b.files, w, version));
    Counts(|w.keys|, p.inserted, p.reparsed, |b.files.Keys - Listed(w)|, w.foreign + p.skipped, p.failed)
  }

  // ------------------------------------------------------------------
  // Runs, including those that die
  // ------------------------------------------------------------------

  datatype Store = Store(base: Base, usage: map<UsageLabel, Grouping.Entry<UsageLabel>>,
                         toolRollup: map<ToolLabel, Grouping.Entry<ToolLabel>>,
                         latency: map<LatencyLabel, map<RecordId, Transcript.Record>>)

  /** How far a run got.  Every transaction boundary is a place to die. */
  datatype Stage =
    | DiedFetching(done: set<Key>)   // some files persisted, nothing after
    | DiedUpserted
    | DiedDeleted
    | DiedFlagged
    | DiedRolled
    | DiedTooled
    | Finished

  ghost predicate NoFatal(b: Base, w: World, version: string) {
    forall k | k in Due(b.files, w, version) :: k in w.outcome && !w.outcome[k].Fatal?
  }

  function Flag(s: Store): Store {
    s.(base := s.base.(records := Canonical.Flagged(s.base.records)))
  }

  ghost function Roll(s: Store): Store {
    s.(usage := UsageTable(s.base.files, s.base.records))
  }

  ghost function RollTools(s: Store): Store {
    s.(toolRollup := ToolTable(s.base.files, s.base.tools))
  }

  function RollLatency(s: Store): Store {
    s.(latency := LatencyTable(s.base.files, s.base.records))
  }

  /** Neither rebuild hits its primary key. */
  ghost predicate UsageRolls(b: Base) {
    UsageKeyHolds(Grouping.Labels(UsageRows(b.files, b.records)))
  }

  predicate LatencyCollides(b: Base) {
    ScopesCollide(b.files, b.records)
  }

  /** Where the post-passes end over these rows. */
  ghost function RebuildStage(b: Base): Stage {
    if !UsageRolls(b) then DiedFlagged else if LatencyCollides(b) then DiedTooled else Finished
  }

  ghost predicate Possible(s: Store, w: World, version: string, stage: Stage) {
    ValidWorld(w) &&
    match stage
    case DiedFetching(done) => done <= Winners(s.base, w, version)
    case DiedUpserted => NoFatal(s.base, w, version)
    case DiedDeleted => NoFatal(s.base, w, version)
    case DiedFlagged => NoFatal(s.base, w, version)
    case DiedRolled => NoFatal(s.base, w, version) && UsageRolls(Flag(MainStore(s, w, version)).base)
    case DiedTooled => NoFatal(s.base, w, version) && UsageRolls(Flag(MainStore(s, w, version)).base)
    case Finished => (
      NoFatal(s.base, w, version) && UsageRolls(Flag(MainStore(s, w, version)).base)
      && !LatencyCollides(Flag(MainStore(s, w, version)).base))
  }

  ghost function MainStore(s: Store, w: World, version: string): Store
    requires ValidWorld(w)
  {
    WinnersWon(s.base, w, version, Winners(s.base, w, version));
    s.(base := Main(s.base, w, version))
  }

  ghost function Apply(s: Store, w: World, version: string, stage: Stage): Store
    requires Possible(s, w, version, stage)
  {
    var seen := Seen(w, w.keys);
    WinnersWon(s.base, w, version, Winners(s.base, w, version));
    match stage
    case DiedFetching(done) =>
      WinnersWon(s.base, w, version, done);
      s.(base := After(s.base, w, version, seen, done))
    case DiedUpserted =>
      s.(base := UpsertAll(After(s.base, w, version, seen, Winners(s.base, w, version)), seen))
    case DiedDeleted => MainStore(s, w, version)
    case DiedFlagged => Flag(MainStore(s, w, version))
    case DiedRolled => Roll(Flag(MainStore(s, w, version)))
    case DiedTooled => RollTools(Roll(Flag(MainStore(s, w, version))))
    case Finished => RollLatency(RollTools(Roll(Flag(MainStore(s, w, version)))))
  }
}
