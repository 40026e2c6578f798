/** The first and last times stored for a project, over every history of runs
    (backend/ingest.py:181-194, 278-298, 873-888). */
module ProjectTimes {
  import opened Tables
  import opened Plan
  import opened Ingest
  import opened IngestHistory
  import ChangeFlag
  import Grouping

  /** Some run of the history listed an object of the project modified at t. */
  ghost predicate Witnessed(history: seq<Event>, project: string, t: int) {
    exists e, k | e in history && k in e.world.keys ::
      ProjectOf(k) == project && k in e.world.meta && e.world.meta[k].modified == t
  }

  /** The run got as far as its unconditional upsert. */
  predicate Upserted(e: Event) {
    !e.stage.DiedFetching?
  }

  /** The stored times contain those of every object such a run listed. */
  ghost predicate Contains(projects: map<string, Project>, e: Event) {
    forall k | k in e.world.keys && k in e.world.meta ::
      && ProjectOf(k) in projects
      && projects[ProjectOf(k)].firstSeen <= e.world.meta[k].modified <= projects[ProjectOf(k)].lastSeen
  }

  ghost predicate Attained(history: seq<Event>, projects: map<string, Project>) {
    forall p | p in projects ::
      Witnessed(history, p, projects[p].firstSeen) && Witnessed(history, p, projects[p].lastSeen)
  }

  /** The projects table only grows, and each project's times only widen. */
  ghost predicate Widens(before: map<string, Project>, after: map<string, Project>) {
    forall p | p in before ::
      p in after && after[p].firstSeen <= before[p].firstSeen && before[p].lastSeen <= after[p].lastSeen
  }

  lemma MergeWidens(projects: map<string, Project>, seen: map<string, Project>, ids: set<string>)
    requires ids <= seen.Keys
    ensures Widens(projects, ProjectsAfter(projects, seen, ids))
    ensures forall p | p in ids ::
      var after := ProjectsAfter(projects, seen, ids);
      p in after && after[p].firstSeen <= seen[p].firstSeen && seen[p].lastSeen <= after[p].lastSeen
  {
  }

  lemma ContainsWidens(before: map<string, Project>, after: map<string, Project>, e: Event)
    requires Contains(before, e) && Widens(before, after)
    ensures Contains(after, e)
  {
    hide ProjectOf;
  }

  lemma WitnessedLater(history: seq<Event>, e: Event, p: string, t: int)
    requires Witnessed(history, p, t)
    ensures Witnessed(history + [e], p, t)
  {
    hide ProjectOf;
    var f, k :| f in history && k in f.world.keys && ProjectOf(k) == p && k in f.world.meta
      && f.world.meta[k].modified == t;
    assert f in history + [e];
  }

  /** A seen project's times are listed objects' modification times. */
  lemma SeenIsWitnessed(history: seq<Event>, e: Event, p: string)
    requires ValidWorld(e.world) && p in Seen(e.world, e.world.keys)
    ensures Witnessed(history + [e], p, Seen(e.world, e.world.keys)[p].firstSeen)
    ensures Witnessed(history + [e], p, Seen(e.world, e.world.keys)[p].lastSeen)
  {
    hide Seen, ProjectOf, IsWireKey, Proper;
    var w := e.world;
    SeenSpans(w, |w.keys|);
    assert w.keys[..|w.keys|] == w.keys && SpansProject(w, w.keys, p, Seen(w, w.keys)[p]);
    assert e in history + [e];
  }

  lemma SeenContains(w: World)
    requires ValidWorld(w)
    ensures forall k | k in w.keys ::
      && ProjectOf(k) in Seen(w, w.keys)
      && Seen(w, w.keys)[ProjectOf(k)].firstSeen <= w.meta[k].modified <= Seen(w, w.keys)[ProjectOf(k)].lastSeen
  {
    hide Seen, ProjectOf, IsWireKey, Proper;
    SeenSpans(w, |w.keys|);
    assert w.keys[..|w.keys|] == w.keys;
    forall k | k in w.keys
      ensures ProjectOf(k) in Seen(w, w.keys) && SpansProject(w, w.keys, ProjectOf(k), Seen(w, w.keys)[ProjectOf(k)])
    {
    }
  }

  lemma MergeAttains(history: seq<Event>, e: Event, projects: map<string, Project>, ids: set<string>)
    requires ValidWorld(e.world) && ids <= Seen(e.world, e.world.keys).Keys && Attained(history, projects)
    ensures Attained(history + [e], ProjectsAfter(projects, Seen(e.world, e.world.keys), ids))
  {
    hide Seen, Witnessed, IsWireKey, Proper;
    var seen := Seen(e.world, e.world.keys);
    var after := ProjectsAfter(projects, seen, ids);
    forall p | p in after
      ensures Witnessed(history + [e], p, after[p].firstSeen) && Witnessed(history + [e], p, after[p].lastSeen)
    {
      if p in projects {
        WitnessedLater(history, e, p, projects[p].firstSeen);
        WitnessedLater(history, e, p, projects[p].lastSeen);
      }
      if p in ids {
        SeenIsWitnessed(history, e, p);
      }
    }
  }

  /** Whatever its stage, a run merges some seen projects in, and all of them from its
      unconditional upsert on. */
  lemma RunMerges(s: Store, e: Event) returns (ids: set<string>)
    requires Possible(s, e.world, e.version, e.stage)
    ensures ids <= Seen(e.world, e.world.keys).Keys
    ensures Apply(s, e.world, e.version, e.stage).base.projects
         == ProjectsAfter(s.base.projects, Seen(e.world, e.world.keys), ids)
    ensures Upserted(e) ==> ids == Seen(e.world, e.world.keys).Keys
  {
    hide Seen, AllWon, Winners, NoFatal, UsageRolls, LatencyCollides, UsageTable, ToolTable, LatencyTable,
         ProjectsAfter, FilesAfter, RecordsAfter, ToolsAfter, IsWireKey, Proper;
    var seen, won := Seen(e.world, e.world.keys), Winners(s.base, e.world, e.version);
    WinnersWon(s.base, e.world, e.version, won);
    ChangeFlag.MainProjects(s.base, e.world, e.version);
    ChangeFlag.WinnersSeen(e.world, seen, won);
    UpsertsAbsorbed(s.base.projects, seen, ProjectsOf(won));
    match e.stage
    case DiedFetching(done) =>
      WinnersWon(s.base, e.world, e.version, done);
      ChangeFlag.WinnersSeen(e.world, seen, done);
      ids := ProjectsOf(done);
    case _ =>
      ids := seen.Keys;
  }

  /** After any history, each project's stored first and last times are modification times of
      objects of that project some run listed, and they contain those of every object listed
      by a run that got as far as its upsert: no run narrows them. */
  lemma {:induction false} StoredTimesSpan(history: seq<Event>, e: Event)
    requires Feasible(history)
    ensures Attained(history, StateAfter(history).base.projects)
    ensures e in history && Upserted(e) ==> Contains(StateAfter(history).base.projects, e)
  {
    hide *;
    if history == [] {
      NothingStored();
      Unlisted(history, e);
    } else {
      var before, last := history[..|history| - 1], history[|history| - 1];
      LastRun(history);
      StoredTimesSpan(before, e);
      var ids := RunMerges(StateAfter(before), last);
      assert history == before + [last];
      RunSpans(before, last, e, StateAfter(before).base.projects, ids, StateAfter(history).base.projects);
    }
  }

  lemma NothingStored()
    ensures Feasible([]) && Attained([], StateAfter([]).base.projects)
  {
  }

  lemma Unlisted(history: seq<Event>, e: Event)
    requires history == []
    ensures e !in history
  {
  }

  lemma LastRun(history: seq<Event>)
    requires Feasible(history) && history != []
    ensures var before, last := history[..|history| - 1], history[|history| - 1];
      && Feasible(before) && Possible(StateAfter(before), last.world, last.version, last.stage)
      && ValidWorld(last.world)
      && StateAfter(history) == Apply(StateAfter(before), last.world, last.version, last.stage)
  {
    hide Apply, ValidWorld;
  }

  lemma RunSpans(before: seq<Event>, last: Event, e: Event, projects: map<string, Project>, ids: set<string>,
                 after: map<string, Project>)
    requires ValidWorld(last.world) && ids <= Seen(last.world, last.world.keys).Keys
    requires after == ProjectsAfter(projects, Seen(last.world, last.world.keys), ids)
    requires Upserted(last) ==> ids == Seen(last.world, last.world.keys).Keys
    requires Attained(before, projects) && (e in before && Upserted(e) ==> Contains(projects, e))
    ensures Attained(before + [last], after)
    ensures e in before + [last] && Upserted(e) ==> Contains(after, e)
  {
    hide Seen, IsWireKey, Proper, ProjectsAfter, Attained, Widens, ProjectOf;
    MergeAttains(before, last, projects, ids);
    MergeWidens(projects, Seen(last.world, last.world.keys), ids);
    if e in before && Upserted(e) {
      ContainsWidens(projects, after, e);
    } else if e == last && Upserted(e) {
      SeenContains(last.world);
    }
  }
}
