/** What one run sees and plans (backend/ingest.py:98-172, 201-251, 873-964): keys of
    the bucket listing, the fetch outcome of each, the work list, and the pool that
    pairs every item with its result or its exception. */
module Plan {
  import opened Wrappers
  import opened Tables
  import Transcript

  // ------------------------------------------------------------------
  // Keys
  // ------------------------------------------------------------------

  /** `key.split("/")`. */
  function Parts(key: string): (parts: seq<string>)
    ensures parts != []
  {
    if key == "" then [""]
    else
      var rest := Parts(key[1..]);
      if key[0] == '/' then [""] + rest else [[key[0]] + rest[0]] + rest[1..]
  }

  predicate Mentions(s: string, word: string) {
    word <= s || (s != "" && Mentions(s[1..], word))
  }

  /** sessions/{project}/{session}/.../wire.jsonl, possibly compressed. */
  predicate IsWireKey(key: Key) {
    var parts := Parts(key);
    && 4 <= |parts| && parts[0] == "sessions"
    && (parts[|parts| - 1] == "wire.jsonl" || parts[|parts| - 1] == "wire.jsonl.xz")
  }

  function ProjectOf(key: Key): string {
    if 1 < |Parts(key)| then Parts(key)[1] else ""
  }

  function SessionOf(key: Key): string {
    if 2 < |Parts(key)| then Parts(key)[2] else ""
  }

  function IsMain(key: Key): bool {
    !Mentions(key, "/subagents/")
  }

  /** Parts joined by slashes. */
  function Joined(parts: seq<string>): string
    requires parts != []
  {
    if |parts| == 1 then parts[0] else parts[0] + "/" + Joined(parts[1..])
  }

  ghost predicate NoSlashes(parts: seq<string>) {
    forall p | p in parts :: '/' !in p
  }

  /** Splitting at every slash is the only way to read a key as slash-free parts. */
  lemma {:induction false} PartsExactly(key: string, parts: seq<string>)
    requires parts != []
    ensures Parts(key) == parts <==> Joined(parts) == key && NoSlashes(parts)
    decreases |key|, |parts|
  {
    PartsJoin(key);
    if Joined(parts) == key && NoSlashes(parts) {
      JoinedParts(parts);
    }
  }

  lemma {:induction false} PartsJoin(key: string)
    ensures Joined(Parts(key)) == key && NoSlashes(Parts(key))
  {
    if key != "" {
      PartsJoin(key[1..]);
      var rest := Parts(key[1..]);
      if key[0] == '/' {
        assert ([""] + rest)[1..] == rest && key == "/" + key[1..];
      } else {
        FirstPartGrows(key[0], rest);
        assert key == [key[0]] + key[1..];
      }
    }
  }

  lemma FirstPartGrows(c: char, parts: seq<string>)
    requires parts != [] && c != '/' && NoSlashes(parts)
    ensures Joined([[c] + parts[0]] + parts[1..]) == [c] + Joined(parts)
    ensures NoSlashes([[c] + parts[0]] + parts[1..])
  {
    var grown := [[c] + parts[0]] + parts[1..];
    assert grown[1..] == parts[1..];
    if |parts| > 1 {
      assert ([c] + parts[0]) + "/" + Joined(parts[1..]) == [c] + (parts[0] + "/" + Joined(parts[1..]));
    }
  }

  lemma {:induction false} JoinedParts(parts: seq<string>)
    requires parts != [] && NoSlashes(parts)
    ensures Parts(Joined(parts)) == parts
    decreases |parts|, |parts[0]|
  {
    var key := Joined(parts);
    if parts[0] == "" {
      if |parts| > 1 {
        assert key == "/" + Joined(parts[1..]) && key[1..] == Joined(parts[1..]);
        JoinedParts(parts[1..]);
        assert parts == [""] + parts[1..];
      } else {
        assert parts == [""];
      }
    } else {
      var c, shorter := parts[0][0], [parts[0][1..]] + parts[1..];
      assert '/' !in parts[0] && parts[0] == [c] + parts[0][1..] && '/' !in parts[0][1..];
      FirstPartGrows(c, shorter);
      assert shorter[1..] == parts[1..] && parts == [[c] + shorter[0]] + shorter[1..];
      JoinedParts(shorter);
      assert key[1..] == Joined(shorter);
    }
  }

  /** The word stands at index i of the text. */
  predicate OccursAt(s: string, word: string, i: nat) {
    i + |word| <= |s| && s[i..i + |word|] == word
  }

  lemma {:induction false} MentionsExactly(s: string, word: string)
    ensures Mentions(s, word) <==> exists i: nat :: OccursAt(s, word, i)
  {
    if word <= s {
      assert OccursAt(s, word, 0);
    } else if s != "" {
      MentionsExactly(s[1..], word);
      OccursLater(s, word);
    }
  }

  lemma OccursLater(s: string, word: string)
    requires s != "" && !(word <= s)
    ensures (exists i: nat :: OccursAt(s, word, i)) <==> exists i: nat :: OccursAt(s[1..], word, i)
  {
    if i: nat :| OccursAt(s, word, i) {
      assert i != 0;
      assert OccursAt(s[1..], word, i - 1);
    }
    if i: nat :| OccursAt(s[1..], word, i) {
      assert OccursAt(s, word, i + 1);
    }
  }

  /** A transcript is the session's own unless its key has a subagents folder in it. */
  lemma IsMainExactly(key: Key)
    ensures IsMain(key) <==> !exists i: nat :: OccursAt(key, "/subagents/", i)
  {
    MentionsExactly(key, "/subagents/");
    hide Mentions, OccursAt;
  }

  lemma SubagentKey(a: string, b: string)
    ensures !IsMain(a + "/subagents/" + b)
  {
    var key := a + "/subagents/" + b;
    IsMainExactly(key);
    assert OccursAt(key, "/subagents/", |a|);
  }

  // ------------------------------------------------------------------
  // The world as one run finds it
  // ------------------------------------------------------------------

  datatype Meta = Meta(etag: string, modified: int)

  /** What fetching and parsing one object comes to. */
  datatype Outcome =
    | Parsed(parsed: Transcript.Parsed)
    | Unsupported        // UnsupportedTranscriptError: skipped, not booked as a failure
    | Failed             // any other per-object exception
    | Fatal              // FatalFetchError: escapes to the run

  /** `names` are the display names the project markers yielded; `foreign` counts
      transcripts in another harness's layout. */
  datatype World = World(keys: seq<Key>, meta: map<Key, Meta>, names: map<string, string>,
                         outcome: map<Key, Outcome>, foreign: nat)

  ghost predicate DistinctKeys(keys: seq<Key>) {
    forall i, j | 0 <= i < j < |keys| :: keys[i] != keys[j]
  }

  /** Record lines increase, tool calls are numbered, a latency comes with a stamp. */
  ghost predicate Proper(parsed: Transcript.Parsed) {
    && (forall i, j | 0 <= i < j < |parsed.records| :: parsed.records[i].line < parsed.records[j].line)
    && (forall i | 0 <= i < |parsed.tools| :: parsed.tools[i].idx == i)
    && (forall r | r in parsed.records && r.latency.Some? :: r.ts.Some?)
  }

  /** A bucket lists each key once, and only wire keys reach the plan. */
  ghost predicate ValidWorld(w: World) {
    && DistinctKeys(w.keys)
    && forall k | k in w.keys ::
         && IsWireKey(k) && k in w.meta && k in w.outcome
         && (w.outcome[k].Parsed? ==> Proper(w.outcome[k].parsed))
  }

  function Listed(w: World): set<Key> {
    set k | k in w.keys
  }

  // ------------------------------------------------------------------
  // The plan
  // ------------------------------------------------------------------

  /** `stored` is the (etag, parser version) the file was last parsed at, if any. */
  datatype Item = Item(key: Key, stored: Option<(string, string)>)

  function StoredOf(files: map<Key, FileRow>, key: Key): Option<(string, string)> {
    if key in files then Some((files[key].etag, files[key].version)) else None
  }

  predicate NeedsWork(files: map<Key, FileRow>, w: World, version: string, key: Key)
    requires key in w.meta
  {
    StoredOf(files, key) != Some((w.meta[key].etag, version))
  }

  function Todo(files: map<Key, FileRow>, w: World, version: string, keys: seq<Key>): seq<Item>
    requires forall k | k in keys :: k in w.meta
  {
    if keys == [] then []
    else
      var key := keys[|keys| - 1];
      Todo(files, w, version, keys[..|keys| - 1])
      + if NeedsWork(files, w, version, key) then [Item(key, StoredOf(files, key))] else []
  }

  function Seen(w: World, keys: seq<Key>): map<string, Project>
    requires forall k | k in keys :: k in w.meta
  {
    if keys == [] then map[]
    else
      var key := keys[|keys| - 1];
      See(w, Seen(w, keys[..|keys| - 1]), ProjectOf(key), w.meta[key].modified)
  }

  function NameOf(w: World, project: string): string {
    if project in w.names then w.names[project] else project
  }

  function See(w: World, seen: map<string, Project>, project: string, modified: int): map<string, Project> {
    if project !in seen
    then seen[project := Project(NameOf(w, project), modified, modified)]
    else
      var p := seen[project];
      seen[project := p.(firstSeen := if modified < p.firstSeen then modified else p.firstSeen,
                         lastSeen := if modified > p.lastSeen then modified else p.lastSeen)]
  }

  lemma NothingPlanned(w: World, files: map<Key, FileRow>, version: string)
    ensures Todo(files, w, version, []) == [] && Seen(w, []) == map[]
  {
  }

  lemma PlanStep(w: World, files: map<Key, FileRow>, version: string, i: nat)
    requires i < |w.keys| && forall k | k in w.keys :: k in w.meta
    ensures Todo(files, w, version, w.keys[..i + 1]) == Todo(files, w, version, w.keys[..i])
      + if NeedsWork(files, w, version, w.keys[i]) then [Item(w.keys[i], StoredOf(files, w.keys[i]))] else []
    ensures Seen(w, w.keys[..i + 1])
         == See(w, Seen(w, w.keys[..i]), ProjectOf(w.keys[i]), w.meta[w.keys[i]].modified)
  {
    hide See, NeedsWork, StoredOf, ProjectOf;
    assert w.keys[..i + 1][..i] == w.keys[..i];
  }

  method PlanWork(w: World, files: map<Key, FileRow>, version: string)
    returns (listed: nat, seenKeys: set<Key>, seen: map<string, Project>, todo: seq<Item>)
    requires forall k | k in w.keys :: k in w.meta
    ensures listed == |w.keys| && seenKeys == Listed(w)
    ensures seen == Seen(w, w.keys) && todo == Todo(files, w, version, w.keys)
  {
    hide Todo, Seen, See, NeedsWork, StoredOf, ProjectOf;
    NothingPlanned(w, files, version);
    listed, seenKeys, seen, todo := 0, {}, map[], [];
    for i := 0 to |w.keys|
      invariant listed == i && seenKeys == set k | k in w.keys[..i]
      invariant seen == Seen(w, w.keys[..i]) && todo == Todo(files, w, version, w.keys[..i])
    {
      var key := w.keys[i];
      PlanStep(w, files, version, i);
      assert w.keys[..i + 1] == w.keys[..i] + [key];
      listed := listed + 1;
      seenKeys := seenKeys + {key};
      seen := See(w, seen, ProjectOf(key), w.meta[key].modified);
      if NeedsWork(files, w, version, key) {
        todo := todo + [Item(key, StoredOf(files, key))];
      }
    }
    assert w.keys[..|w.keys|] == w.keys;
  }

  /** The keys a run has to fetch. */
  function Due(files: map<Key, FileRow>, w: World, version: string): set<Key> {
    set k | k in w.keys && k in w.meta && NeedsWork(files, w, version, k)
  }

  ghost predicate DistinctItems(items: seq<Item>) {
    forall i, j | 0 <= i < j < |items| :: items[i].key != items[j].key
  }

  function KeysOf(items: seq<Item>): set<Key> {
    set i | i in items :: i.key
  }

  /** The work list is the due keys, each once. */
  lemma {:induction false} TodoIsDue(files: map<Key, FileRow>, w: World, version: string, n: nat)
    requires n <= |w.keys| && DistinctKeys(w.keys) && forall k | k in w.keys :: k in w.meta
    ensures var todo := Todo(files, w, version, w.keys[..n]);
      && DistinctItems(todo)
      && (forall i | i in todo :: i.key in w.keys[..n] && i.stored == StoredOf(files, i.key))
      && KeysOf(todo) == set k | k in w.keys[..n] && NeedsWork(files, w, version, k)
  {
    hide NeedsWork, StoredOf;
    if n > 0 {
      TodoIsDue(files, w, version, n - 1);
      var before := w.keys[..n - 1];
      assert w.keys[..n][..n - 1] == before && w.keys[..n] == before + [w.keys[n - 1]];
      var shorter, todo := Todo(files, w, version, before), Todo(files, w, version, w.keys[..n]);
      if NeedsWork(files, w, version, w.keys[n - 1]) {
        assert todo == shorter + [Item(w.keys[n - 1], StoredOf(files, w.keys[n - 1]))];
        KeysOfAppend(shorter, Item(w.keys[n - 1], StoredOf(files, w.keys[n - 1])));
      } else {
        assert todo == shorter;
      }
    }
  }

  lemma KeysOfAppend(items: seq<Item>, item: Item)
    ensures KeysOf(items + [item]) == KeysOf(items) + {item.key}
  {
    assert item in items + [item];
    forall k | k in KeysOf(items)
      ensures k in KeysOf(items + [item])
    {
      var i :| i in items && i.key == k;
      assert i in items + [item];
    }
  }

  lemma WholeTodoIsDue(files: map<Key, FileRow>, w: World, version: string)
    requires ValidWorld(w)
    ensures var todo := Todo(files, w, version, w.keys);
      && DistinctItems(todo) && KeysOf(todo) == Due(files, w, version)
      && forall i | i in todo :: i.stored == StoredOf(files, i.key)
  {
    hide NeedsWork, StoredOf, Todo;
    TodoIsDue(files, w, version, |w.keys|);
    assert w.keys[..|w.keys|] == w.keys;
  }

  // ------------------------------------------------------------------
  // Seen projects
  // ------------------------------------------------------------------

  /** A seen project's times are the least and greatest modification time of its
      listed objects. */
  ghost predicate SpansProject(w: World, keys: seq<Key>, project: string, p: Project)
    requires forall k | k in keys :: k in w.meta
  {
    && (exists k | k in keys :: ProjectOf(k) == project && w.meta[k].modified == p.firstSeen)
    && (exists k | k in keys :: ProjectOf(k) == project && w.meta[k].modified == p.lastSeen)
    && (forall k | k in keys && ProjectOf(k) == project :: p.firstSeen <= w.meta[k].modified <= p.lastSeen)
  }

  ghost predicate Spans(w: World, keys: seq<Key>, seen: map<string, Project>)
    requires forall k | k in keys :: k in w.meta
  {
    && (forall k | k in keys :: ProjectOf(k) in seen)
    && (forall p | p in seen :: SpansProject(w, keys, p, seen[p]) && seen[p].name == NameOf(w, p))
  }

  lemma NothingSpans(w: World)
    ensures Spans(w, [], map[])
  {
  }

  lemma {:induction false} SeenSpans(w: World, n: nat)
    requires n <= |w.keys| && forall k | k in w.keys :: k in w.meta
    ensures Spans(w, w.keys[..n], Seen(w, w.keys[..n]))
  {
    hide *;
    if n == 0 {
      NothingPlanned(w, map[], "");
      NothingSpans(w);
      assert w.keys[..0] == [];
    } else {
      SeenSpans(w, n - 1);
      PlanStep(w, map[], "", n - 1);
      assert w.keys[..n] == w.keys[..n - 1] + [w.keys[n - 1]];
      SeeSpans(w, w.keys[..n - 1], w.keys[n - 1], Seen(w, w.keys[..n - 1]));
    }
  }

  lemma SeeSpans(w: World, before: seq<Key>, key: Key, seen: map<string, Project>)
    requires (forall k | k in before :: k in w.meta) && key in w.meta
    requires Spans(w, before, seen)
    ensures Spans(w, before + [key], See(w, seen, ProjectOf(key), w.meta[key].modified))
  {
    var keys, after := before + [key], See(w, seen, ProjectOf(key), w.meta[key].modified);
    assert forall k :: k in keys <==> k in before || k == key;
    assert ProjectOf(key) in after;
    forall p | p in after
      ensures SpansProject(w, keys, p, after[p]) && after[p].name == NameOf(w, p)
    {
      if p != ProjectOf(key) {
        hide ProjectOf, See;
        assert after[p] == seen[p];
        assert SpansProject(w, before, p, seen[p]);
        OtherProject(w, before, key, p, seen[p]);
      } else if p in seen {
        assert SpansProject(w, before, p, seen[p]);
        OwnProject(w, before, key, seen[p], after[p]);
      } else {
        FirstOfProject(w, before, key, after[p]);
      }
    }
  }

  lemma OtherProject(w: World, before: seq<Key>, key: Key, project: string, p: Project)
    requires (forall k | k in before :: k in w.meta) && key in w.meta
    requires SpansProject(w, before, project, p) && ProjectOf(key) != project
    ensures SpansProject(w, before + [key], project, p)
  {
    hide ProjectOf;
    var i :| i in before && ProjectOf(i) == project && w.meta[i].modified == p.firstSeen;
    var j :| j in before && ProjectOf(j) == project && w.meta[j].modified == p.lastSeen;
    assert i in before + [key] && j in before + [key];
  }

  lemma OwnProject(w: World, before: seq<Key>, key: Key, p: Project, q: Project)
    requires (forall k | k in before :: k in w.meta) && key in w.meta
    requires SpansProject(w, before, ProjectOf(key), p)
    requires var m := w.meta[key].modified;
      && q.firstSeen == (if m < p.firstSeen then m else p.firstSeen)
      && q.lastSeen == (if m > p.lastSeen then m else p.lastSeen)
    ensures SpansProject(w, before + [key], ProjectOf(key), q)
  {
    hide ProjectOf;
    var project := ProjectOf(key);
    var i :| i in before && ProjectOf(i) == project && w.meta[i].modified == p.firstSeen;
    var j :| j in before && ProjectOf(j) == project && w.meta[j].modified == p.lastSeen;
    assert i in before + [key] && j in before + [key] && key in before + [key];
  }

  lemma FirstOfProject(w: World, before: seq<Key>, key: Key, q: Project)
    requires (forall k | k in before :: k in w.meta) && key in w.meta
    requires forall k | k in before :: ProjectOf(k) != ProjectOf(key)
    requires q.firstSeen == w.meta[key].modified == q.lastSeen
    ensures SpansProject(w, before + [key], ProjectOf(key), q)
  {
    hide ProjectOf;
    assert key in before + [key];
  }

  // ------------------------------------------------------------------
  // One GET with retry
  // ------------------------------------------------------------------

  /** What one attempt at r2.get_object does. */
  datatype Attempt = Got | Transient | Corrupt | Bug

  datatype Fetch = Fetched | ObjectFailed | RunFailed

  const ATTEMPTS: nat := 3

  /** The first attempt that is not a transient failure decides; a corrupt payload
      fails the object at once, a bug fails the run, and three transient failures
      fail the object. */
  method FetchWithRetry(attempts: seq<Attempt>) returns (r: Fetch, used: nat)
    requires |attempts| == ATTEMPTS
    ensures 1 <= used <= ATTEMPTS && forall i | 0 <= i < used - 1 :: attempts[i] == Transient
    ensures attempts[used - 1] == Transient ==> used == ATTEMPTS
    ensures r == match attempts[used - 1]
                 case Got => Fetched
                 case Bug => RunFailed
                 case _ => ObjectFailed
  {
    used := 0;
    while used < ATTEMPTS
      invariant 0 <= used < ATTEMPTS
      invariant forall i | 0 <= i < used :: attempts[i] == Transient
    {
      var attempt := attempts[used];
      used := used + 1;
      if attempt.Got? {
        return Fetched, used;
      } else if attempt.Corrupt? {
        return ObjectFailed, used;
      } else if attempt.Bug? {
        return RunFailed, used;
      } else if used == ATTEMPTS {
        return ObjectFailed, used;
      }
    }
    assert false;
    r := ObjectFailed;
  }

  // ------------------------------------------------------------------
  // The pool
  // ------------------------------------------------------------------

  function Firsts(results: seq<(Item, Outcome)>): seq<Item> {
    seq(|results|, i requires 0 <= i < |results| => results[i].0)
  }

  ghost predicate Known(items: seq<Item>, outcome: map<Key, Outcome>) {
    forall i | i in items :: i.key in outcome
  }

  /** Every item once, each with its own outcome. */
  ghost predicate Pairs(results: seq<(Item, Outcome)>, items: seq<Item>, outcome: map<Key, Outcome>) {
    && multiset(Firsts(results)) == multiset(items)
    && forall r | r in results :: r.0.key in outcome && r.1 == outcome[r.0.key]
  }

  ghost predicate AnyFatal(items: seq<Item>, outcome: map<Key, Outcome>) {
    exists i | i in items :: i.key in outcome && outcome[i.key].Fatal?
  }

  /** Sequential with one worker; otherwise results are collected in whatever order
      they complete.  Either way only a fatal outcome escapes. */
  method Resolve(items: seq<Item>, outcome: map<Key, Outcome>, workers: nat)
    returns (results: seq<(Item, Outcome)>, fatal: bool)
    requires Known(items, outcome)
    ensures fatal <==> AnyFatal(items, outcome)
    ensures !fatal ==> Pairs(results, items, outcome)
  {
    results, fatal := [], false;
    var pending := items;
    while pending != []
      invariant multiset(Firsts(results)) + multiset(pending) == multiset(items)
      invariant forall r | r in results :: r.0 in items && r.0.key in outcome && r.1 == outcome[r.0.key] && !r.1.Fatal?
      decreases |pending|
    {
      var i := 0;
      if workers != 1 {
        i :| 0 <= i < |pending|;
      }
      var item := pending[i];
      InMultiset(pending, items, results, item);
      if outcome[item.key].Fatal? {
        return results, true;
      }
      FirstsAppend(results, item, outcome[item.key]);
      Remove(pending, i);
      results := results + [(item, outcome[item.key])];
      pending := pending[..i] + pending[i + 1..];
    }
    NoneFatal(results, items, outcome);
  }

  lemma NoneFatal(results: seq<(Item, Outcome)>, items: seq<Item>, outcome: map<Key, Outcome>)
    requires multiset(Firsts(results)) == multiset(items) && Known(items, outcome)
    requires forall r | r in results :: r.0.key in outcome && r.1 == outcome[r.0.key] && !r.1.Fatal?
    ensures !AnyFatal(items, outcome)
  {
    forall item | item in items
      ensures !outcome[item.key].Fatal?
    {
      assert item in multiset(items);
      assert item in Firsts(results);
      var i :| 0 <= i < |Firsts(results)| && Firsts(results)[i] == item;
      assert results[i] in results;
    }
  }

  lemma InMultiset(pending: seq<Item>, items: seq<Item>, results: seq<(Item, Outcome)>, item: Item)
    requires multiset(Firsts(results)) + multiset(pending) == multiset(items) && item in pending
    ensures item in items
  {
    assert item in multiset(pending);
    assert item in multiset(items);
  }

  lemma FirstsAppend(results: seq<(Item, Outcome)>, item: Item, o: Outcome)
    ensures Firsts(results + [(item, o)]) == Firsts(results) + [item]
  {
  }

  lemma Remove(s: seq<Item>, i: nat)
    requires i < |s|
    ensures multiset(s) == multiset(s[..i] + s[i + 1..]) + multiset{s[i]}
  {
    assert s == s[..i] + [s[i]] + s[i + 1..];
  }
}
