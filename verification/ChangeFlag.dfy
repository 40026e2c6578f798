/** What a run's `data_changed` tells (backend/ingest.py:278-357, 397-434): exactly when
    it is set, exactly when a run that does not set it leaves all that responses are
    computed from, and which changes it passes over: files dead runs left, and display names. */
module ChangeFlag {
  import opened Tables
  import opened Plan
  import opened Ingest
  import opened IngestHistory
  import opened IngestConvergence
  import Canonical
  import RebuildConflicts

  // ------------------------------------------------------------------
  // One run
  // ------------------------------------------------------------------

  lemma WonAreCounted(b: Base, w: World, version: string)
    ensures var p := ProgressOf(b.files, w, Due(b.files, w, version));
            p.inserted > 0 || p.reparsed > 0 <==> Winners(b, w, version) != {}
  {
    WinnersAreCounted(b, w, version);
    hide Due, Won, KindOf, OfKind, Winners;
    var due := Due(b.files, w, version);
    var inserted, reparsed := OfKind(b.files, w, due, Inserted), OfKind(b.files, w, due, Reparsed);
    assert inserted != {} ==> 0 < |inserted|;
    assert reparsed != {} ==> 0 < |reparsed|;
  }

  lemma WinnersAreCounted(b: Base, w: World, version: string)
    ensures var due := Due(b.files, w, version);
            Winners(b, w, version) == OfKind(b.files, w, due, Inserted) + OfKind(b.files, w, due, Reparsed)
  {
    hide Due, Won;
  }

  /** A persisted file's row differs from the one it replaces. */
  lemma WinnerDiffers(b: Base, w: World, version: string, k: Key)
    requires k in Winners(b, w, version)
    ensures k in w.keys && Won(w, k) && (k in b.files ==> NewFile(w, version, k) != b.files[k])
  {
  }

  lemma MainWinner(b: Base, w: World, version: string, k: Key)
    requires ValidWorld(w) && AllWon(w, Seen(w, w.keys), Winners(b, w, version)) && k in Winners(b, w, version)
    ensures Main(b, w, version).files != b.files
  {
    WinnerDiffers(b, w, version, k);
    MainFile(b, w, version, k);
  }

  lemma MainWithoutWinners(b: Base, w: World, version: string)
    requires ValidWorld(w) && Winners(b, w, version) == {} && b.files.Keys <= Listed(w)
    ensures AllWon(w, Seen(w, w.keys), Winners(b, w, version))
    ensures Main(b, w, version).files == b.files
    ensures Valid(b) ==> Main(b, w, version) == b.(projects := Main(b, w, version).projects)
  {
    hide Seen, IsWireKey, Proper, ProjectOf, SessionOf, IsMain, ProjectsAfter, Winners, After, Valid;
    WinnersWon(b, w, version, Winners(b, w, version));
    NothingAfter(b, w, version, Seen(w, w.keys));
    assert DeleteOrphaned(b, Listed(w)).files == b.files;
    if Valid(b) {
      OnlyListed(b, Listed(w));
    }
  }

  /** `data_changed` is set exactly when the run changed the files table. */
  lemma FlagSetExactly(b: Base, w: World, version: string)
    requires ValidWorld(w)
    ensures AllWon(w, Seen(w, w.keys), Winners(b, w, version))
    ensures CountsOf(b, w, version).DataChanged() <==> Main(b, w, version).files != b.files
  {
    hide Main, Seen, AllWon, Winners, CountsOf, IsWireKey, Proper;
    WinnersWon(b, w, version, Winners(b, w, version));
    FlagCounts(b, w, version);
    hide Listed;
    if k :| k in Winners(b, w, version) {
      MainWinner(b, w, version, k);
    } else if k :| k in b.files && k !in Listed(w) {
      StoredWereListed(b, w, version);
      assert k !in Main(b, w, version).files;
    } else {
      assert Winners(b, w, version) == {};
      MainWithoutWinners(b, w, version);
    }
  }

  /** Nothing was persisted, and nothing stored is missing from the listing. */
  ghost predicate Quiet(b: Base, w: World, version: string) {
    Winners(b, w, version) == {} && forall k | k in b.files :: k in Listed(w)
  }

  lemma FlagCounts(b: Base, w: World, version: string)
    ensures CountsOf(b, w, version).DataChanged() <==> !Quiet(b, w, version)
  {
    hide ProgressOf, Winners, Listed;
    WonAreCounted(b, w, version);
    OrphansCount(b.files.Keys, Listed(w));
  }

  lemma OrphansCount(stored: set<Key>, listed: set<Key>)
    ensures |stored - listed| > 0 <==> exists k | k in stored :: k !in listed
  {
    if k :| k in stored && k !in listed {
      assert k in stored - listed;
    } else {
      assert stored - listed == {};
    }
  }

  // ------------------------------------------------------------------
  // The counts
  // ------------------------------------------------------------------

  /** The stored files whose row the run replaces with another. */
  ghost function Replaced(before: map<Key, FileRow>, after: map<Key, FileRow>): set<Key> {
    set k | k in before && k in after && after[k] != before[k]
  }

  /** Due keys whose outcome is as given. */
  function DueWith(b: Base, w: World, version: string, unsupported: bool): set<Key> {
    set k | k in Due(b.files, w, version) && k in w.outcome
            && (if unsupported then w.outcome[k].Unsupported? else w.outcome[k].Failed?)
  }

  /** A run's counts are the difference it makes to the files table: files it adds, files
      whose row it replaces, files it removes; and the due keys it skipped or booked. */
  lemma CountsAreTheDifference(b: Base, w: World, version: string)
    requires ValidWorld(w)
    ensures AllWon(w, Seen(w, w.keys), Winners(b, w, version))
    ensures var c, after := CountsOf(b, w, version), Main(b, w, version).files;
      && c.listed == |w.keys|
      && c.inserted == |after.Keys - b.files.Keys|
      && c.reparsed == |Replaced(b.files, after)|
      && c.deleted == |b.files.Keys - after.Keys|
      && c.skipped == w.foreign + |DueWith(b, w, version, true)|
      && c.failed == |DueWith(b, w, version, false)|
  {
    WinnersWon(b, w, version, Winners(b, w, version));
    var after := Main(b, w, version).files;
    FilesDiffer(b, w, version);
    KindsAre(b, w, version);
    hide Main, Seen, AllWon, Winners, KindOf, OfKind, Due, IsWireKey, Proper, Replaced, DueWith;
    assert b.files.Keys - Listed(w) == b.files.Keys - after.Keys;
  }

  lemma FilesDiffer(b: Base, w: World, version: string)
    requires ValidWorld(w) && AllWon(w, Seen(w, w.keys), Winners(b, w, version))
    ensures var after := Main(b, w, version).files;
      && after.Keys - b.files.Keys == (set k | k in Winners(b, w, version) && k !in b.files)
      && Replaced(b.files, after) == (set k | k in Winners(b, w, version) && k in b.files)
      && b.files.Keys - Listed(w) == b.files.Keys - after.Keys
  {
    hide Seen, AllWon, Winners, IsWireKey, Proper;
    var after := Main(b, w, version).files;
    StoredWereListed(b, w, version);
    WinnersListed(b, w, version);
    forall k | k in Listed(w)
      ensures k in after <==> k in b.files || k in Winners(b, w, version)
      ensures k in b.files && k in after ==> (after[k] != b.files[k] <==> k in Winners(b, w, version))
    {
      MainFile(b, w, version, k);
      if k in Winners(b, w, version) {
        WinnerDiffers(b, w, version, k);
      }
    }
    hide Main;
  }

  lemma KindsAre(b: Base, w: World, version: string)
    requires ValidWorld(w)
    ensures var due := Due(b.files, w, version);
      && OfKind(b.files, w, due, Inserted) == (set k | k in Winners(b, w, version) && k !in b.files)
      && OfKind(b.files, w, due, Reparsed) == (set k | k in Winners(b, w, version) && k in b.files)
      && OfKind(b.files, w, due, Skipped) == DueWith(b, w, version, true)
      && OfKind(b.files, w, due, Failing) == DueWith(b, w, version, false)
  {
    hide Due, IsWireKey, Proper;
  }

  // ------------------------------------------------------------------
  // Project names
  // ------------------------------------------------------------------

  /** What responses read of the projects table (backend/api.py:110-188, 669-707). */
  function NamesOf(projects: map<string, Project>): map<string, string> {
    map p | p in projects :: projects[p].name
  }

  /** Every listed project takes the name its marker yielded, or its id. */
  function Renamed(names: map<string, string>, w: World): map<string, string> {
    map p | p in names.Keys + ProjectsOf(Listed(w)) :: if p in ProjectsOf(Listed(w)) then NameOf(w, p) else names[p]
  }

  /** Every listed project already has that name. */
  predicate Named(names: map<string, string>, w: World) {
    forall k | k in w.keys :: ProjectOf(k) in names && names[ProjectOf(k)] == NameOf(w, ProjectOf(k))
  }

  lemma RenamedExactly(names: map<string, string>, w: World)
    ensures Renamed(names, w) == names <==> Named(names, w)
  {
    hide ProjectOf, NameOf;
    forall k | k in w.keys
      ensures ProjectOf(k) in Renamed(names, w) && Renamed(names, w)[ProjectOf(k)] == NameOf(w, ProjectOf(k))
    {
      assert k in Listed(w);
    }
    if Named(names, w) {
      assert forall p | p in ProjectsOf(Listed(w)) :: p in names && names[p] == NameOf(w, p);
      assert Renamed(names, w) == names;
    }
  }

  lemma SeenNames(w: World)
    requires ValidWorld(w)
    ensures Seen(w, w.keys).Keys == ProjectsOf(Listed(w))
    ensures forall p | p in Seen(w, w.keys) :: Seen(w, w.keys)[p].name == NameOf(w, p)
  {
    hide Seen, IsWireKey, Proper, ProjectOf, NameOf;
    SeenSpans(w, |w.keys|);
    assert w.keys[..|w.keys|] == w.keys;
    var seen := Seen(w, w.keys);
    forall p | p in seen
      ensures p in ProjectsOf(Listed(w))
    {
      assert SpansProject(w, w.keys, p, seen[p]);
      var k :| k in w.keys && ProjectOf(k) == p && w.meta[k].modified == seen[p].firstSeen;
      assert k in Listed(w);
    }
  }

  lemma UpsertedNames(projects: map<string, Project>, seen: map<string, Project>)
    ensures var names := NamesOf(ProjectsAfter(projects, seen, seen.Keys));
      && names.Keys == projects.Keys + seen.Keys
      && forall p | p in names :: names[p] == if p in seen then seen[p].name else projects[p].name
  {
  }

  /** The main pass upserts every seen project, whether or not its files need work. */
  lemma MainProjects(b: Base, w: World, version: string)
    requires ValidWorld(w)
    ensures AllWon(w, Seen(w, w.keys), Winners(b, w, version))
    ensures Main(b, w, version).projects == ProjectsAfter(b.projects, Seen(w, w.keys), Seen(w, w.keys).Keys)
  {
    var seen, won := Seen(w, w.keys), Winners(b, w, version);
    WinnersWon(b, w, version, won);
    WinnersSeen(w, seen, won);
    hide Seen, Winners, ProjectsAfter, FilesAfter, RecordsAfter, ToolsAfter, IsWireKey, Proper, AllWon;
    UpsertsAbsorbed(b.projects, seen, ProjectsOf(won));
  }

  lemma WinnersSeen(w: World, seen: map<string, Project>, done: set<Key>)
    requires AllWon(w, seen, done)
    ensures ProjectsOf(done) <= seen.Keys
  {
    hide ProjectOf;
  }

  lemma MainNames(b: Base, w: World, version: string)
    requires ValidWorld(w)
    ensures AllWon(w, Seen(w, w.keys), Winners(b, w, version))
    ensures NamesOf(Main(b, w, version).projects) == Renamed(NamesOf(b.projects), w)
  {
    hide Seen, Winners, Main, ProjectsAfter, ProjectsOf, Listed, NameOf, AllWon, IsWireKey, Proper;
    MainProjects(b, w, version);
    SeenNames(w);
    UpsertedNames(b.projects, Seen(w, w.keys));
    assert NamesOf(Main(b, w, version).projects) == Renamed(NamesOf(b.projects), w);
  }

  /** The tables a response is computed from, project names apart. */
  ghost predicate SameData(s: Store, t: Store) {
    && s.base.files == t.base.files && s.base.records == t.base.records && s.base.tools == t.base.tools
    && s.usage == t.usage && s.toolRollup == t.toolRollup && s.latency == t.latency
  }

  /** Everything a response is computed from: these tables and the project names. */
  ghost predicate SameAnswers(s: Store, t: Store) {
    SameData(s, t) && NamesOf(s.base.projects) == NamesOf(t.base.projects)
  }

  lemma SameDataChains(s: Store, t: Store, u: Store)
    requires SameData(s, t) && SameData(t, u)
    ensures SameData(s, u)
  {
  }

  lemma SameDataConsistent(s: Store, t: Store)
    requires SameData(s, t) && Consistent(s)
    ensures Consistent(t)
  {
    hide UsageTable, ToolTable, LatencyTable, Canonical.Leads;
  }

  /** Over consistent rows every rebuild rewrites what is there. */
  lemma RebuildsAreIdle(s: Store, t: Store)
    requires Consistent(s) && SameData(s, t)
    ensures SameData(s, Flag(t)) && SameData(s, Roll(Flag(t)))
    ensures SameData(s, RollTools(Roll(Flag(t)))) && SameData(s, RollLatency(RollTools(Roll(Flag(t)))))
  {
    hide UsageTable, ToolTable, LatencyTable, Canonical.Leads;
    assert Canonical.Flagged(s.base.records) == s.base.records;
  }

  lemma PersistedChangesFiles(b: Base, w: World, version: string, seen: map<string, Project>, done: set<Key>, k: Key)
    requires AllWon(w, seen, done) && done <= Winners(b, w, version) && k in done
    ensures After(b, w, version, seen, done).files != b.files
  {
    WinnerDiffers(b, w, version, k);
    hide ProjectsAfter, RecordsAfter, ToolsAfter, NewFile, Won, ProjectOf, AllWon;
    assert After(b, w, version, seen, done).files[k] == NewFile(w, version, k);
  }

  /** From a consistent state, a run that leaves the files table as it was, however far it
      got, leaves records, flags, calls and rollups as they were. */
  lemma UnchangedFilesUnchangedData(s: Store, w: World, version: string, stage: Stage)
    requires Valid(s.base) && Consistent(s) && Possible(s, w, version, stage)
    requires Apply(s, w, version, stage).base.files == s.base.files
    ensures SameData(s, Apply(s, w, version, stage))
  {
    hide Valid, Consistent, After, Seen, AllWon, Winners, Canonical.Flagged, UsageTable, ToolTable, LatencyTable,
         UsageRolls, LatencyCollides, NoFatal, IsWireKey, Proper, ProjectsAfter, Main;
    var seen, won := Seen(w, w.keys), Winners(s.base, w, version);
    WinnersWon(s.base, w, version, won);
    if stage.DiedFetching? {
      WinnersWon(s.base, w, version, stage.done);
      if k :| k in stage.done {
        PersistedChangesFiles(s.base, w, version, seen, stage.done, k);
      }
      assert stage.done == {};
      NothingAfter(s.base, w, version, seen);
    } else if stage.DiedUpserted? {
      if k :| k in won {
        PersistedChangesFiles(s.base, w, version, seen, won, k);
      }
      assert won == {};
      NothingAfter(s.base, w, version, seen);
    } else {
      QuietMain(s, w, version);
      RebuildsAreIdle(s, MainStore(s, w, version));
    }
  }

  lemma QuietMain(s: Store, w: World, version: string)
    requires Valid(s.base) && ValidWorld(w) && AllWon(w, Seen(w, w.keys), Winners(s.base, w, version))
    requires Main(s.base, w, version).files == s.base.files
    ensures SameData(s, MainStore(s, w, version))
  {
    hide Valid, Main, Seen, AllWon, Winners, IsWireKey, Proper;
    if k :| k in Winners(s.base, w, version) {
      MainWinner(s.base, w, version, k);
    }
    assert Winners(s.base, w, version) == {};
    StoredWereListed(s.base, w, version);
    MainWithoutWinners(s.base, w, version);
  }

  /** A finished run without a data change leaves every table but the projects. */
  lemma QuietRunChangesNothing(s: Store, w: World, version: string)
    requires Valid(s.base) && Consistent(s) && Possible(s, w, version, Finished)
    requires !CountsOf(s.base, w, version).DataChanged()
    ensures SameData(s, Apply(s, w, version, Finished))
  {
    hide Valid, Consistent, Main, Seen, AllWon, Winners, CountsOf, NoFatal, UsageRolls, LatencyCollides,
         Canonical.Flagged, UsageTable, ToolTable, LatencyTable;
    FlagSetExactly(s.base, w, version);
    UnchangedFilesUnchangedData(s, w, version, Finished);
  }

  lemma FinishedKeepsProjects(s: Store, w: World, version: string)
    requires Possible(s, w, version, Finished)
    ensures NamesOf(Apply(s, w, version, Finished).base.projects) == Renamed(NamesOf(s.base.projects), w)
  {
    hide Main, Seen, AllWon, Winners, NoFatal, UsageRolls, LatencyCollides, UsageTable, ToolTable, LatencyTable,
         Canonical.Flagged, NamesOf, Renamed, IsWireKey, Proper;
    MainNames(s.base, w, version);
  }

  /** A finished run without a data change leaves everything a response is computed from
      exactly when each listed project was already stored under the name its marker
      yields, or its id if the marker yields none. */
  lemma QuietRunChangesNamesExactly(s: Store, w: World, version: string)
    requires Valid(s.base) && Consistent(s) && Possible(s, w, version, Finished) && Quiet(s.base, w, version)
    ensures !CountsOf(s.base, w, version).DataChanged()
    ensures SameAnswers(s, Apply(s, w, version, Finished)) <==> Named(NamesOf(s.base.projects), w)
    ensures NamesOf(Apply(s, w, version, Finished).base.projects) == Renamed(NamesOf(s.base.projects), w)
  {
    hide Valid, Consistent, Possible, Apply, Quiet, CountsOf, Renamed, Named, NamesOf;
    FlagCounts(s.base, w, version);
    QuietRunChangesNothing(s, w, version);
    FinishedKeepsProjects(s, w, version);
    RenamedExactly(NamesOf(s.base.projects), w);
  }

  // ------------------------------------------------------------------
  // Between two finished runs
  // ------------------------------------------------------------------

  lemma {:induction false} FeasiblePrefix(h: seq<Event>, i: nat)
    requires Feasible(h) && i <= |h|
    ensures Feasible(h[..i])
    decreases |h|
  {
    if i < |h| {
      FeasiblePrefix(h[..|h| - 1], i);
      assert h[..|h| - 1][..i] == h[..i];
    } else {
      assert h[..i] == h;
    }
  }

  /** The state after the first i runs of a history. */
  ghost function At(h: seq<Event>, i: nat): Store
    requires Feasible(h) && i <= |h|
  {
    FeasiblePrefix(h, i);
    StateAfter(h[..i])
  }

  lemma RunAt(h: seq<Event>, i: nat)
    requires Feasible(h) && i < |h|
    ensures Possible(At(h, i), h[i].world, h[i].version, h[i].stage)
    ensures At(h, i + 1) == Apply(At(h, i), h[i].world, h[i].version, h[i].stage)
    ensures Valid(At(h, i).base)
  {
    FeasiblePrefix(h, i + 1);
    FeasiblePrefix(h, i);
    assert h[..i + 1][..i] == h[..i];
    hide Possible, Apply, Valid;
    EveryStateIsValid(h[..i]);
  }

  /** Run i of the history left the files table as it found it. */
  ghost predicate Still(h: seq<Event>, i: nat)
    requires Feasible(h) && i < |h|
  {
    At(h, i + 1).base.files == At(h, i).base.files
  }

  /** From a finished run on, as long as every run leaves the files table alone, nothing
      derived changes either. */
  lemma {:induction false} StillStretch(h: seq<Event>, n: nat, m: nat)
    requires Feasible(h) && 0 < n <= m <= |h| && h[n - 1].stage.Finished?
    requires forall i | n <= i < m :: Still(h, i)
    ensures SameData(At(h, n), At(h, m)) && Consistent(At(h, m))
    decreases m
  {
    hide Feasible, Consistent, Apply, Possible, Valid;
    if n == m {
      FinishedAt(h, n);
      assert SameData(At(h, n), At(h, n));
    } else {
      StillStretch(h, n, m - 1);
      RunAt(h, m - 1);
      assert Still(h, m - 1);
      hide At;
      UnchangedFilesUnchangedData(At(h, m - 1), h[m - 1].world, h[m - 1].version, h[m - 1].stage);
      SameDataConsistent(At(h, m - 1), At(h, m));
      SameDataChains(At(h, n), At(h, m - 1), At(h, m));
    }
  }

  lemma FinishedAt(h: seq<Event>, n: nat)
    requires Feasible(h) && 0 < n <= |h| && h[n - 1].stage.Finished?
    ensures Consistent(At(h, n))
  {
    FeasiblePrefix(h, n);
    assert h[..n][|h[..n]| - 1] == h[n - 1];
    hide Feasible, Consistent, StateAfter;
    FinishedRunLeavesConsistency(h[..n]);
  }

  lemma {:induction false} StillFiles(h: seq<Event>, n: nat, m: nat)
    requires Feasible(h) && n <= m <= |h| && forall i | n <= i < m :: Still(h, i)
    ensures At(h, n).base.files == At(h, m).base.files
    decreases m
  {
    hide At, Feasible;
    if n < m {
      StillFiles(h, n, m - 1);
      StillAt(h, m - 1);
    }
  }

  lemma StillAt(h: seq<Event>, i: nat)
    requires Feasible(h) && i < |h| && Still(h, i)
    ensures At(h, i + 1).base.files == At(h, i).base.files
  {
  }

  /** Did the run that finished the history report a data change? */
  ghost predicate Reported(h: seq<Event>)
    requires Feasible(h) && h != []
  {
    var last := h[|h| - 1];
    CountsOf(At(h, |h| - 1).base, last.world, last.version).DataChanged()
  }

  /** Let run n - 1 and the last run be finished and every run between have died.  The last
      run passes over a change of the files made since run n - 1 exactly when it persists
      and deletes nothing and finds the files different from what run n - 1 left, which
      takes a dead run that changed them. */
  lemma ChangePassedOverExactly(h: seq<Event>, n: nat)
    requires Feasible(h) && 0 < n < |h| && h[n - 1].stage.Finished? && h[|h| - 1].stage.Finished?
    requires forall i | n <= i < |h| - 1 :: !h[i].stage.Finished?
    ensures !Reported(h) && At(h, |h|).base.files != At(h, n).base.files
       <==> Quiet(At(h, |h| - 1).base, h[|h| - 1].world, h[|h| - 1].version)
            && At(h, |h| - 1).base.files != At(h, n).base.files
    ensures At(h, |h| - 1).base.files != At(h, n).base.files ==> exists i | n <= i < |h| - 1 :: !Still(h, i)
  {
    hide Feasible, At, Quiet, CountsOf;
    ReportedByLast(h);
    FlagCounts(At(h, |h| - 1).base, h[|h| - 1].world, h[|h| - 1].version);
    if forall i | n <= i < |h| - 1 :: Still(h, i) {
      StillFiles(h, n, |h| - 1);
    }
  }

  lemma ReportedByLast(h: seq<Event>)
    requires Feasible(h) && h != [] && h[|h| - 1].stage.Finished?
    ensures Reported(h) <==> At(h, |h|).base.files != At(h, |h| - 1).base.files
  {
    hide Feasible, At, Possible, Apply, CountsOf, Valid;
    var last := h[|h| - 1];
    RunAt(h, |h| - 1);
    ReportedExactly(At(h, |h| - 1), last.world, last.version);
  }

  lemma ReportedExactly(s: Store, w: World, version: string)
    requires Possible(s, w, version, Finished)
    ensures CountsOf(s.base, w, version).DataChanged()
       <==> Apply(s, w, version, Finished).base.files != s.base.files
  {
    hide CountsOf, Main, Seen, AllWon, Winners, NoFatal, UsageRolls, LatencyCollides, UsageTable, ToolTable,
         LatencyTable, Canonical.Flagged, IsWireKey, Proper;
    FlagSetExactly(s.base, w, version);
  }

  /** What a caller may rely on before skipping an invalidation: if no run that died since
      the last finished one changed the files table or a project's name, and every listed
      project has the name its marker yields, or its id, then a run that reports no data
      change leaves everything a response is computed from as the last finished run left it. */
  lemma QuietReportIsSafe(h: seq<Event>, n: nat)
    requires Feasible(h) && 0 < n < |h| && h[n - 1].stage.Finished? && h[|h| - 1].stage.Finished?
    requires forall i | n <= i < |h| - 1 :: !h[i].stage.Finished? && Still(h, i)
    requires NamesOf(At(h, |h| - 1).base.projects) == NamesOf(At(h, n).base.projects)
    requires Named(NamesOf(At(h, n).base.projects), h[|h| - 1].world)
    requires !Reported(h)
    ensures SameAnswers(At(h, n), At(h, |h|))
  {
    hide Feasible, At, Reported, Named, NamesOf, Renamed;
    ReportedByLast(h);
    StillStretch(h, n, |h|);
    NamesAt(h);
    RenamedExactly(NamesOf(At(h, n).base.projects), h[|h| - 1].world);
  }

  /** The names a history ending in a finished run leaves. */
  lemma NamesAt(h: seq<Event>)
    requires Feasible(h) && h != [] && h[|h| - 1].stage.Finished?
    ensures NamesOf(At(h, |h|).base.projects)
         == Renamed(NamesOf(At(h, |h| - 1).base.projects), h[|h| - 1].world)
  {
    hide Feasible, At, Possible, Apply, NamesOf, Renamed, Valid;
    var last := h[|h| - 1];
    RunAt(h, |h| - 1);
    FinishedKeepsProjects(At(h, |h| - 1), last.world, last.version);
  }

  // ------------------------------------------------------------------
  // Exactly when a quiet report is right
  // ------------------------------------------------------------------

  /** The files table decides all the rest: two histories that end finished over the same
      parses agree on every table but the projects exactly when they agree on the files. */
  lemma FilesDecideData(a: seq<Event>, b: seq<Event>, truth: Truth)
    requires Feasible(a) && a != [] && a[|a| - 1].stage.Finished? && TruthfulHistory(truth, a)
    requires Feasible(b) && b != [] && b[|b| - 1].stage.Finished? && TruthfulHistory(truth, b)
    ensures SameData(StateAfter(a), StateAfter(b)) <==> StateAfter(a).base.files == StateAfter(b).base.files
  {
    hide Feasible, StateAfter, TruthfulHistory, Valid, Consistent, Faithful;
    if StateAfter(a).base.files == StateAfter(b).base.files {
      EveryStateIsValid(a);
      EveryStateIsValid(b);
      EveryStateIsFaithful(a, truth);
      EveryStateIsFaithful(b, truth);
      FinishedRunLeavesConsistency(a);
      FinishedRunLeavesConsistency(b);
      SameContentAgrees(StateAfter(a), StateAfter(b), truth);
    }
  }

  lemma FilesDecideAt(h: seq<Event>, n: nat, truth: Truth)
    requires Feasible(h) && 0 < n <= |h| && TruthfulHistory(truth, h)
    requires h[n - 1].stage.Finished? && h[|h| - 1].stage.Finished?
    ensures SameData(At(h, n), At(h, |h|)) <==> At(h, n).base.files == At(h, |h|).base.files
  {
    FeasiblePrefix(h, n);
    assert h[..|h|] == h && h[..n][|h[..n]| - 1] == h[n - 1];
    assert TruthfulHistory(truth, h[..n]);
    hide Feasible, StateAfter, TruthfulHistory, SameData;
    FilesDecideData(h[..n], h, truth);
  }

  lemma QuietAt(h: seq<Event>)
    requires Feasible(h) && h != [] && h[|h| - 1].stage.Finished?
    requires Quiet(At(h, |h| - 1).base, h[|h| - 1].world, h[|h| - 1].version)
    ensures !Reported(h) && At(h, |h|).base.files == At(h, |h| - 1).base.files
  {
    hide Feasible, At, Quiet, CountsOf;
    var last := h[|h| - 1];
    FlagCounts(At(h, |h| - 1).base, last.world, last.version);
    ReportedByLast(h);
  }

  /** Run n - 1 and the last run finished, with any runs between, and the last one persists
      and deletes nothing, so it reports no data change.  Every table but the projects is
      then as run n - 1 left it exactly when the last run found the files so, and the
      project names are too exactly when its markers also name the projects so. */
  lemma QuietReportIsRightExactly(h: seq<Event>, n: nat, truth: Truth)
    requires Feasible(h) && 0 < n < |h| && TruthfulHistory(truth, h)
    requires h[n - 1].stage.Finished? && h[|h| - 1].stage.Finished?
    requires Quiet(At(h, |h| - 1).base, h[|h| - 1].world, h[|h| - 1].version)
    ensures !Reported(h)
    ensures SameData(At(h, n), At(h, |h|)) <==> At(h, |h| - 1).base.files == At(h, n).base.files
    ensures SameAnswers(At(h, n), At(h, |h|))
       <==> At(h, |h| - 1).base.files == At(h, n).base.files
            && Renamed(NamesOf(At(h, |h| - 1).base.projects), h[|h| - 1].world) == NamesOf(At(h, n).base.projects)
  {
    hide Feasible, At, Quiet, Reported, TruthfulHistory, SameData, NamesOf, Renamed;
    QuietAt(h);
    FilesDecideAt(h, n, truth);
    NamesAt(h);
  }

  // ------------------------------------------------------------------
  // A silent rename
  // ------------------------------------------------------------------

  /** In a settled bucket a listed project stored under another name is renamed by a run
      that reports no data change. */
  lemma SettledRenameIsSilent(s: Store, w: World, version: string, k: Key)
    requires Possible(s, w, version, Finished)
    requires Due(s.base.files, w, version) == {} && s.base.files.Keys <= Listed(w)
    requires k in w.keys && ProjectOf(k) in s.base.projects
    requires s.base.projects[ProjectOf(k)].name != NameOf(w, ProjectOf(k))
    ensures !CountsOf(s.base, w, version).DataChanged()
    ensures var after := Apply(s, w, version, Finished).base;
      && after.files == s.base.files && ProjectOf(k) in after.projects
      && after.projects[ProjectOf(k)].name == NameOf(w, ProjectOf(k)) != s.base.projects[ProjectOf(k)].name
  {
    hide Possible, Apply, CountsOf, ProjectOf, NameOf, Due;
    assert Quiet(s.base, w, version);
    hide Quiet;
    FlagCounts(s.base, w, version);
    ReportedExactly(s, w, version);
    FinishedKeepsProjects(s, w, version);
    assert k in Listed(w);
    var after := Apply(s, w, version, Finished).base.projects;
    assert ProjectOf(k) in NamesOf(after) && NamesOf(after)[ProjectOf(k)] == NameOf(w, ProjectOf(k));
  }

  lemma TwoRuns(e: Event, f: Event)
    requires Possible(EMPTY, e.world, e.version, e.stage)
    requires Possible(Apply(EMPTY, e.world, e.version, e.stage), f.world, f.version, f.stage)
    ensures Feasible([e, f]) && At([e, f], 1) == Apply(EMPTY, e.world, e.version, e.stage)
    ensures At([e, f], 2) == Apply(At([e, f], 1), f.world, f.version, f.stage)
  {
    hide Possible, Apply;
    assert [e][..0] == [] && [e, f][..1] == [e] && [e, f][..2] == [e, f];
    assert Feasible([e]) && StateAfter([e]) == Apply(EMPTY, e.world, e.version, e.stage);
  }

  /** One transcript of project "p". */
  function OneTranscript(names: map<string, string>): World {
    RebuildConflicts.Listing([RebuildConflicts.WireKey("p", "s")]).(names := names)
  }

  lemma OneTranscriptLists(names: map<string, string>)
    ensures var w, k := OneTranscript(names), RebuildConflicts.WireKey("p", "s");
      && ValidWorld(w) && w.keys == [k] && Listed(w) == {k} && ProjectOf(k) == "p" && Won(w, k)
      && w.names == names && OneProject(Listed(w)) && NamedProjects(Listed(w))
  {
    var k := RebuildConflicts.WireKey("p", "s");
    assert "p"[0] != "s"[0];
    RebuildConflicts.WireKeyReads("p", "s");
    RebuildConflicts.ListingIsValid([k]);
    hide RebuildConflicts.WireKey, ProjectOf, SessionOf, IsMain, IsWireKey, Proper;
  }

  lemma AllDueAreWon(b: Base, w: World, version: string)
    requires forall k | k in w.keys :: Won(w, k)
    ensures Due(b.files, w, version) == Winners(b, w, version) && NoFatal(b, w, version)
  {
    hide NeedsWork;
  }

  lemma OneRenamed(names: map<string, string>, w: World, p: string)
    requires ProjectsOf(Listed(w)) == {p}
    ensures Renamed(names, w) == names[p := NameOf(w, p)]
  {
    hide ProjectsOf, Listed, NameOf;
  }

  lemma OneTranscriptFinishes(s: Store, names: map<string, string>)
    requires Valid(s.base)
    ensures var w := OneTranscript(names);
      && Possible(s, w, "1", Finished) && Due(s.base.files, w, "1") == Winners(s.base, w, "1")
      && NamesOf(Apply(s, w, "1", Finished).base.projects)
         == NamesOf(s.base.projects)["p" := if "p" in names then names["p"] else "p"]
  {
    hide *;
    var w := OneTranscript(names);
    OneTranscriptLists(names);
    AllDueAreWon(s.base, w, "1");
    NonFatalRunFinishes(s, w, "1");
    FinishedKeepsProjects(s, w, "1");
    OneProjectListed(w, RebuildConflicts.WireKey("p", "s"));
    OneRenamed(NamesOf(s.base.projects), w, "p");
    NameOfMarker(w, "p");
  }

  lemma OneProjectListed(w: World, k: Key)
    requires Listed(w) == {k}
    ensures ProjectsOf(Listed(w)) == {ProjectOf(k)}
  {
    hide ProjectOf, Listed;
  }

  lemma NameOfMarker(w: World, p: string)
    ensures NameOf(w, p) == if p in w.names then w.names[p] else p
  {
  }

  /** A finished run that won all it had to leaves the next over the same objects quiet. */
  lemma SecondRunIsQuiet(s: Store, v: World, w: World, version: string)
    requires Possible(s, v, version, Finished) && Due(s.base.files, v, version) == Winners(s.base, v, version)
    requires w.keys == v.keys && w.meta == v.meta
    ensures Quiet(Apply(s, v, version, Finished).base, w, version)
  {
    hide Due, Winners, Main, Seen, AllWon, NoFatal, UsageRolls, LatencyCollides, Canonical.Flagged, UsageTable,
         ToolTable, LatencyTable, IsWireKey, Proper;
    WinnersWon(s.base, v, version, Winners(s.base, v, version));
    RerunPlansLeftovers(s.base, v, version, w);
    StoredWereListed(s.base, v, version);
    NothingDueNothingWon(Apply(s, v, version, Finished).base, w, version);
    assert Listed(w) == Listed(v);
  }

  lemma NothingDueNothingWon(b: Base, w: World, version: string)
    requires Due(b.files, w, version) == {}
    ensures Winners(b, w, version) == {}
  {
  }

  /** An instance: a first run names a project by its marker; the next, whose marker GET
      failed, overwrites the name with the id and reports no data change. */
  lemma LostMarkerInstance() returns (h: seq<Event>)
    ensures Feasible(h) && |h| == 2 && h[0].stage.Finished? && h[1].stage.Finished?
    ensures h[1].version == h[0].version && h[1].world == h[0].world.(names := map[])
    ensures !Reported(h)
    ensures NamesOf(At(h, 1).base.projects) == map["p" := "/home/p"]
    ensures NamesOf(At(h, 2).base.projects) == map["p" := "p"]
  {
    hide *;
    var v, w := OneTranscript(map["p" := "/home/p"]), OneTranscript(map[]);
    SameTranscript(map["p" := "/home/p"]);
    RebuildConflicts.EmptyIsValid();
    OneTranscriptFinishes(EMPTY, map["p" := "/home/p"]);
    var s := Apply(EMPTY, v, "1", Finished);
    ApplyKeepsValid(EMPTY, v, "1", Finished);
    OneTranscriptFinishes(s, map[]);
    h := [Run(v, "1", Finished), Run(w, "1", Finished)];
    TwoRuns(h[0], h[1]);
    SecondRunIsQuiet(EMPTY, v, w, "1");
    QuietAt(h);
    NoNames();
  }

  lemma SameTranscript(names: map<string, string>)
    ensures OneTranscript(map[]) == OneTranscript(names).(names := map[])
  {
  }

  lemma NoNames()
    ensures NamesOf(EMPTY.base.projects) == map[]
  {
  }
}
