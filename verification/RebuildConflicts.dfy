/** The rebuilds' primary-key conflicts at the bucket a run lists (backend/schema.sql:94,
    161; backend/ingest.py:591-646, 755-776): exactly when each stops a run, the listings
    that cause it, and an instance of each from an empty database. */
module RebuildConflicts {
  import opened Wrappers
  import opened Tables
  import opened Plan
  import opened Ingest
  import opened IngestHistory
  import IngestConvergence
  import Pricing
  import Transcript

  ghost predicate AnyClash(b: Base) {
    exists i, j | i in b.records && j in b.records :: Clash(b, i, j)
  }

  /** Where the post-passes stop, by the rows they work on. */
  lemma RebuildStopsExactly(b: Base)
    ensures RebuildStage(b) == DiedFlagged <==> AnyClash(b)
    ensures RebuildStage(b) == DiedTooled <==> !AnyClash(b) && ScopesCollide(b.files, b.records)
    ensures RebuildStage(b) == Finished <==> !AnyClash(b) && !ScopesCollide(b.files, b.records)
  {
    hide Clash, UsageRolls, ScopesCollide;
    RollFailsExactlyOnClash(b);
  }

  // ------------------------------------------------------------------
  // From the listing
  // ------------------------------------------------------------------

  /** A won file's record is stored after the main pass, canonical if it has no uuid. */
  lemma WonRecordStored(s: Store, w: World, version: string, k: Key, r: Transcript.Record)
    requires ValidWorld(w) && k in Winners(s.base, w, version) && r in w.outcome[k].parsed.records
    ensures AllWon(w, Seen(w, w.keys), Winners(s.base, w, version))
    ensures var b := Flag(MainStore(s, w, version)).base;
      && RecordId(k, r.line) in b.records && b.records[RecordId(k, r.line)].record == r
      && (r.uuid.None? ==> b.records[RecordId(k, r.line)].canonical)
      && k in b.files && b.files[k].project == ProjectOf(k) && b.files[k].session == SessionOf(k)
      && b.files[k].isMain == IsMain(k)
  {
    hide Main, Seen, AllWon, IsWireKey, RecordRows, ProjectOf, SessionOf, IsMain, NeedsWork;
    WinnersWon(s.base, w, version, Winners(s.base, w, version));
    var id := RecordId(k, r.line);
    MainFile(s.base, w, version, k);
    MainRecord(s.base, w, version, id);
    assert Proper(w.outcome[k].parsed);
    IngestConvergence.RowsAreTheParse(k, w.outcome[k].parsed.records, r);
  }

  /** Two listed files of one session and kind under different projects, each persisted
      with a uuid-less record stamped in the same hour under the same model, stop the run
      at the usage rebuild. */
  lemma SharedSessionStopsRollup(s: Store, w: World, version: string, j: Key, k: Key, q: Transcript.Record,
                                 r: Transcript.Record)
    requires ValidWorld(w) && j in Winners(s.base, w, version) && k in Winners(s.base, w, version)
    requires SessionOf(j) == SessionOf(k) && IsMain(j) == IsMain(k) && ProjectOf(j) != ProjectOf(k)
    requires q in w.outcome[j].parsed.records && q.uuid.None? && q.ts.Some?
    requires r in w.outcome[k].parsed.records && r.uuid.None? && r.ts.Some?
    requires Trunc(q.ts.value) == Trunc(r.ts.value) && ModelName(q.model) == ModelName(r.model)
    ensures RebuildStage(Flag(MainStore(s, w, version)).base) == DiedFlagged
  {
    hide Main, Seen, Winners, AllWon, ProjectOf, SessionOf, IsMain, RebuildStage, ModelName, Trunc, ValidWorld;
    WonRecordStored(s, w, version, j, q);
    WonRecordStored(s, w, version, k, r);
    var b := Flag(MainStore(s, w, version)).base;
    hide Flag;
    assert Clash(b, RecordId(j, q.line), RecordId(k, r.line));
    RebuildStopsExactly(b);
  }

  /** A listed file whose key names an empty project, persisted with a timed record,
      stops the run: at the latency rebuild unless the usage rebuild stops it before. */
  lemma EmptyProjectStopsLatency(s: Store, w: World, version: string, k: Key, r: Transcript.Record)
    requires ValidWorld(w) && k in Winners(s.base, w, version) && ProjectOf(k) == ""
    requires r in w.outcome[k].parsed.records && r.latency.Some?
    ensures AllWon(w, Seen(w, w.keys), Winners(s.base, w, version))
    ensures var b := Flag(MainStore(s, w, version)).base;
            RebuildStage(b) == if AnyClash(b) then DiedFlagged else DiedTooled
  {
    hide Main, Seen, Winners, AllWon, ProjectOf, SessionOf, IsMain, RebuildStage, AnyClash, IsWireKey;
    WonRecordStored(s, w, version, k, r);
    WinnerIsProper(s.base, w, version, k, r);
    var b := Flag(MainStore(s, w, version)).base;
    hide Flag;
    var id := RecordId(k, r.line);
    assert id in b.records && id.file in b.files && Timed(b.records[id].record) && b.files[id.file].project == "";
    RebuildStopsExactly(b);
  }

  lemma WinnerIsProper(b: Base, w: World, version: string, k: Key, r: Transcript.Record)
    requires ValidWorld(w) && k in Winners(b, w, version) && r in w.outcome[k].parsed.records && r.latency.Some?
    ensures r.ts.Some?
  {
    hide IsWireKey, NeedsWork;
    assert Proper(w.outcome[k].parsed);
  }

  // ------------------------------------------------------------------
  // Reading keys
  // ------------------------------------------------------------------

  lemma {:induction false} PartsOfPath(a: string, rest: string)
    requires '/' !in a
    ensures Parts(a + "/" + rest) == [a] + Parts(rest)
  {
    var s := a + "/" + rest;
    if a == "" {
      assert s == "/" + rest && s[1..] == rest;
    } else {
      assert s[1..] == a[1..] + "/" + rest && s[0] == a[0];
      PartsOfPath(a[1..], rest);
      assert ([a[1..]] + Parts(rest))[1..] == Parts(rest);
      assert [a[0]] + a[1..] == a;
    }
  }

  lemma {:induction false} PartsOfName(a: string)
    requires '/' !in a
    ensures Parts(a) == [a]
  {
    if a != "" {
      PartsOfName(a[1..]);
      assert [a[0]] + a[1..] == a;
    }
  }

  /** The main transcript's key for a project and session. */
  function WireKey(project: string, session: string): Key {
    "sessions" + "/" + (project + "/" + (session + "/" + "wire.jsonl"))
  }

  lemma WireKeyReads(project: string, session: string)
    requires '/' !in project && '/' !in session
    ensures IsWireKey(WireKey(project, session))
    ensures ProjectOf(WireKey(project, session)) == project && SessionOf(WireKey(project, session)) == session
  {
    WireKeyParts(project, session);
    hide Parts, WireKey;
  }

  lemma WireKeyParts(project: string, session: string)
    requires '/' !in project && '/' !in session
    ensures Parts(WireKey(project, session)) == ["sessions", project, session, "wire.jsonl"]
  {
    hide Parts;
    PartsOfName("wire.jsonl");
    PartsOfPath(session, "wire.jsonl");
    PartsOfPath(project, session + "/" + "wire.jsonl");
    PartsOfPath("sessions", project + "/" + (session + "/" + "wire.jsonl"));
  }

  lemma NoPrefix(s: string, word: string, c: char)
    requires c in word && c !in s
    ensures !(word <= s)
  {
    var i :| 0 <= i < |word| && word[i] == c;
    assert i < |s| ==> s[i] != c;
  }

  lemma {:induction false} NotMentioned(s: string, word: string, c: char)
    requires c in word && c !in s
    ensures !Mentions(s, word)
  {
    NoPrefix(s, word, c);
    if s != "" {
      NotMentioned(s[1..], word, c);
    }
  }

  lemma WireKeyIsMain(project: string, session: string)
    requires 'g' !in project && 'g' !in session
    ensures IsMain(WireKey(project, session))
  {
    var word := "/subagents/";
    assert word[5] == 'g';
    NotMentioned(WireKey(project, session), word, 'g');
  }

  // ------------------------------------------------------------------
  // Instances, from an empty database
  // ------------------------------------------------------------------

  const REPLY: Transcript.Record :=
    Transcript.Record(1, None, Some(0), "kimi-k3", Pricing.Tally(1, 0, 0, 1), 1800, 1, Some(0))

  function OneRecord(): Transcript.Parsed {
    Transcript.Parsed([REPLY], [], [])
  }

  function Listing(keys: seq<Key>): World {
    World(keys, map k | k in keys :: Meta("etag", 0), map[], map k | k in keys :: Parsed(OneRecord()), 0)
  }

  lemma ListingIsValid(keys: seq<Key>)
    requires DistinctKeys(keys) && forall k | k in keys :: IsWireKey(k)
    ensures ValidWorld(Listing(keys)) && NoFatal(EMPTY.base, Listing(keys), "1")
    ensures Winners(EMPTY.base, Listing(keys), "1") == Listed(Listing(keys))
  {
    hide IsWireKey;
  }

  lemma TwoKeysStopRollup(j: Key, k: Key)
    requires IsWireKey(j) && IsWireKey(k)
    requires SessionOf(j) == SessionOf(k) && IsMain(j) == IsMain(k) && ProjectOf(j) != ProjectOf(k)
    ensures var w := Listing([j, k]);
            ValidWorld(w) && RebuildStage(Flag(MainStore(EMPTY, w, "1")).base) == DiedFlagged
  {
    hide ProjectOf, SessionOf, IsMain, IsWireKey, Main, Seen, RebuildStage, Winners;
    var w := Listing([j, k]);
    ListingIsValid([j, k]);
    assert j in Listed(w) && k in Listed(w);
    SharedSessionStopsRollup(EMPTY, w, "1", j, k, REPLY, REPLY);
  }

  // ------------------------------------------------------------------
  // Exactly the listings whose rebuilds always finish
  // ------------------------------------------------------------------

  /** Over these keys every run no fetch is fatal to gets to the end, whatever is stored
      and whatever the objects hold. */
  ghost predicate AlwaysFinishes(keys: seq<Key>) {
    forall s: Store, w: World, version: string |
      Valid(s.base) && ValidWorld(w) && w.keys == keys && NoFatal(s.base, w, version) ::
      RebuildStage(Flag(MainStore(s, w, version)).base) == Finished
  }

  /** That holds exactly when no session has transcripts of one kind in two projects and
      no project id is empty. */
  lemma AlwaysFinishesExactly(keys: seq<Key>)
    requires DistinctKeys(keys) && forall k | k in keys :: IsWireKey(k)
    ensures AlwaysFinishes(keys) <==> OneProject(set k | k in keys) && NamedProjects(set k | k in keys)
  {
    hide *;
    if AlwaysFinishes(keys) {
      BadListingDies(keys);
    }
    if OneProject(set k | k in keys) && NamedProjects(set k | k in keys) {
      CleanListingFinishes(keys);
    }
  }

  lemma CleanListingFinishes(keys: seq<Key>)
    requires OneProject(set k | k in keys) && NamedProjects(set k | k in keys)
    ensures AlwaysFinishes(keys)
  {
    hide OneProject, NamedProjects, RebuildStage, MainStore, Valid, ValidWorld, NoFatal;
    forall s: Store, w: World, version: string |
      Valid(s.base) && ValidWorld(w) && w.keys == keys && NoFatal(s.base, w, version)
      ensures RebuildStage(Flag(MainStore(s, w, version)).base) == Finished
    {
      NonFatalRunFinishes(s, w, version);
    }
  }

  lemma BadListingDies(keys: seq<Key>)
    requires DistinctKeys(keys) && (forall k | k in keys :: IsWireKey(k)) && AlwaysFinishes(keys)
    ensures OneProject(set k | k in keys) && NamedProjects(set k | k in keys)
  {
    var w := Listing(keys);
    ListingFinishes(keys);
    hide ProjectOf, SessionOf, IsMain, IsWireKey, RebuildStage, MainStore, Winners, AlwaysFinishes;
    forall j, k | j in keys && k in keys && SessionOf(j) == SessionOf(k) && IsMain(j) == IsMain(k)
      ensures ProjectOf(j) == ProjectOf(k)
    {
      if ProjectOf(j) != ProjectOf(k) {
        SharedSessionStopsRollup(EMPTY, w, "1", j, k, REPLY, REPLY);
        assert false;
      }
    }
    forall k | k in keys
      ensures ProjectOf(k) != ""
    {
      if ProjectOf(k) == "" {
        EmptyProjectStopsLatency(EMPTY, w, "1", k, REPLY);
        assert false;
      }
    }
  }

  lemma ListingFinishes(keys: seq<Key>)
    requires DistinctKeys(keys) && (forall k | k in keys :: IsWireKey(k)) && AlwaysFinishes(keys)
    ensures var w := Listing(keys);
            && ValidWorld(w) && Winners(EMPTY.base, w, "1") == Listed(w)
            && RebuildStage(Flag(MainStore(EMPTY, w, "1")).base) == Finished
  {
    ListingIsValid(keys);
    hide *;
    EmptyIsValid();
    ListingKeys(keys);
    FinishesHere(keys, EMPTY, Listing(keys), "1");
  }

  lemma EmptyIsValid()
    ensures Valid(EMPTY.base)
  {
  }

  lemma ListingKeys(keys: seq<Key>)
    ensures Listing(keys).keys == keys
  {
  }

  lemma FinishesHere(keys: seq<Key>, s: Store, w: World, version: string)
    requires AlwaysFinishes(keys) && Valid(s.base) && ValidWorld(w) && w.keys == keys && NoFatal(s.base, w, version)
    ensures RebuildStage(Flag(MainStore(s, w, version)).base) == Finished
  {
    hide Valid, ValidWorld, NoFatal, RebuildStage, MainStore, Flag;
  }

  /** One session under two projects, "p" and "q": the first run dies at the usage rebuild. */
  lemma SharedSessionInstance()
    ensures var w := Listing([WireKey("p", "s"), WireKey("q", "s")]);
            ValidWorld(w) && RebuildStage(Flag(MainStore(EMPTY, w, "1")).base) == DiedFlagged
  {
    hide *;
    assert "p"[0] != "q"[0];
    WireKeyReads("p", "s");
    WireKeyReads("q", "s");
    WireKeyIsMain("p", "s");
    WireKeyIsMain("q", "s");
    TwoKeysStopRollup(WireKey("p", "s"), WireKey("q", "s"));
  }

  /** A key with nothing between its first two slashes: the first run dies at the latency
      rebuild, the usage and tool rollups already rebuilt. */
  lemma EmptyProjectInstance()
    ensures var w := Listing([WireKey("", "s")]);
            ValidWorld(w) && RebuildStage(Flag(MainStore(EMPTY, w, "1")).base) == DiedTooled
  {
    var k := WireKey("", "s");
    WireKeyReads("", "s");
    hide WireKey, ProjectOf, SessionOf, IsMain, IsWireKey, Main, Seen, RebuildStage, Winners, AnyClash;
    var w := Listing([k]);
    ListingIsValid([k]);
    assert k in Listed(w);
    EmptyProjectStopsLatency(EMPTY, w, "1", k, REPLY);
    OneFileNeverClashes(w, k);
  }

  lemma OneFileNeverClashes(w: World, k: Key)
    requires ValidWorld(w) && w.keys == [k]
    ensures !AnyClash(Flag(MainStore(EMPTY, w, "1")).base)
  {
    hide Main, Seen, Winners, AllWon, IsWireKey, Proper;
    WinnersWon(EMPTY.base, w, "1", Winners(EMPTY.base, w, "1"));
    StoredWereListed(EMPTY.base, w, "1");
    var b := Flag(MainStore(EMPTY, w, "1")).base;
    assert b.files.Keys <= Listed(w);
    assert forall f | f in b.files :: f == k;
    hide Flag, Listed;
    forall i, j | i in b.records && j in b.records
      ensures !Clash(b, i, j)
    {
    }
  }
}
