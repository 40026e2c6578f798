/** The latency rebuild (backend/ingest.py:566-646): for every width two passes, one
    grouped by project and one for the all-projects scope, each inserting its groups
    under the table's primary key. */
module LatencyRollup {
  import opened Wrappers
  import opened Tables
  import Transcript

  type Members = map<RecordId, Transcript.Record>

  const WIDTH_LIST: seq<int> := [3600, 21600, 43200, 86400]

  /** The source rows of a pass: timed records, each with its file's row. */
  predicate IsTimed(files: map<Key, FileRow>, records: map<RecordId, Stored>, id: RecordId) {
    id in records && id.file in files && Timed(records[id].record)
  }

  /** The group a timed record falls in, in the per-project or the all-projects pass. */
  function LabelIn(files: map<Key, FileRow>, records: map<RecordId, Stored>, w: int, all: bool,
                   id: RecordId): LatencyLabel
    requires id in records && id.file in files
  {
    LatencyLabel(w, BucketOf(records[id].record, w), if all then "" else files[id.file].project,
                 ModelName(records[id].record.model))
  }

  // ------------------------------------------------------------------
  // One pass
  // ------------------------------------------------------------------

  /** GROUP BY over a labelling: each group's members. */
  function Groups(labels: map<RecordId, LatencyLabel>, records: map<RecordId, Stored>): map<LatencyLabel, Members> {
    map g | g in labels.Values :: MembersOf(labels, records, g)
  }

  function MembersOf(labels: map<RecordId, LatencyLabel>, records: map<RecordId, Stored>, g: LatencyLabel): Members {
    map id | id in labels && id in records && labels[id] == g :: records[id].record
  }

  function Labelling(files: map<Key, FileRow>, records: map<RecordId, Stored>, w: int, all: bool)
    : map<RecordId, LatencyLabel>
  {
    map id | id in records && IsTimed(files, records, id) :: LabelIn(files, records, w, all, id)
  }

  lemma GroupsGrow(labels: map<RecordId, LatencyLabel>, records: map<RecordId, Stored>, id: RecordId, g: LatencyLabel)
    requires id !in labels && id in records
    ensures Groups(labels[id := g], records)
         == Groups(labels, records)[g := MembersOf(labels, records, g)[id := records[id].record]]
    ensures g !in Groups(labels, records) ==> MembersOf(labels, records, g) == map[]
  {
    var more := labels[id := g];
    ValuesGrow(labels, id, g);
    forall h | h in more.Values
      ensures MembersOf(more, records, h)
           == if h == g then MembersOf(labels, records, g)[id := records[id].record] else MembersOf(labels, records, h)
    {
    }
  }

  lemma ValuesGrow(labels: map<RecordId, LatencyLabel>, id: RecordId, g: LatencyLabel)
    requires id !in labels
    ensures labels[id := g].Values == labels.Values + {g}
  {
    var more := labels[id := g];
    forall h | h in labels.Values + {g}
      ensures h in more.Values
    {
      if h in labels.Values {
        var i :| i in labels && labels[i] == h;
        assert more[i] == h;
      } else {
        assert more[id] == h;
      }
    }
  }

  function Restricted(labels: map<RecordId, LatencyLabel>, rest: set<RecordId>): map<RecordId, LatencyLabel> {
    map id | id in labels && id !in rest :: labels[id]
  }

  /** Adding the records to their groups one at a time, in any order. */
  method GroupPass(labels: map<RecordId, LatencyLabel>, records: map<RecordId, Stored>)
    returns (pass: map<LatencyLabel, Members>)
    requires labels.Keys <= records.Keys
    ensures pass == Groups(labels, records)
  {
    pass := map[];
    var rest := labels.Keys;
    ghost var done: map<RecordId, LatencyLabel> := map[];
    assert Groups(done, records) == map[];
    hide Groups, MembersOf;
    while rest != {}
      invariant rest <= labels.Keys && done == Restricted(labels, rest)
      invariant pass == Groups(done, records)
      decreases |rest|
    {
      var id :| id in rest;
      var g := labels[id];
      GroupsGrow(done, records, id, g);
      GroupHolds(done, records, g);
      pass := pass[g := (if g in pass then pass[g] else map[])[id := records[id].record]];
      done := done[id := g];
      assert done == Restricted(labels, rest - {id});
      rest := rest - {id};
    }
    assert done == labels;
  }

  lemma GroupHolds(labels: map<RecordId, LatencyLabel>, records: map<RecordId, Stored>, g: LatencyLabel)
    ensures g in Groups(labels, records) ==> Groups(labels, records)[g] == MembersOf(labels, records, g)
  {
  }

  // ------------------------------------------------------------------
  // All passes
  // ------------------------------------------------------------------

  function PassTable(files: map<Key, FileRow>, records: map<RecordId, Stored>, w: int,
                     all: bool): map<LatencyLabel, Members> {
    Groups(Labelling(files, records, w, all), records)
  }

  /** What the first n widths' passes insert. */
  function Inserted(files: map<Key, FileRow>, records: map<RecordId, Stored>, n: nat): map<LatencyLabel, Members>
    requires n <= |WIDTH_LIST|
  {
    if n == 0 then map[]
    else Inserted(files, records, n - 1) + PassTable(files, records, WIDTH_LIST[n - 1], false)
         + PassTable(files, records, WIDTH_LIST[n - 1], true)
  }

  lemma {:induction false} InsertedWidths(files: map<Key, FileRow>, records: map<RecordId, Stored>, n: nat,
                                          g: LatencyLabel)
    requires n <= |WIDTH_LIST| && g in Inserted(files, records, n)
    ensures exists i | 0 <= i < n :: g.bucketS == WIDTH_LIST[i]
  {
    hide PassTable;
    if g in Inserted(files, records, n - 1) {
      InsertedWidths(files, records, n - 1, g);
      var i :| 0 <= i < n - 1 && g.bucketS == WIDTH_LIST[i];
      assert 0 <= i < n && g.bucketS == WIDTH_LIST[i];
    } else {
      PassWidth(files, records, WIDTH_LIST[n - 1], g);
      assert 0 <= n - 1 < n && g.bucketS == WIDTH_LIST[n - 1];
    }
  }

  lemma PassWidth(files: map<Key, FileRow>, records: map<RecordId, Stored>, w: int, g: LatencyLabel)
    requires g in PassTable(files, records, w, false) || g in PassTable(files, records, w, true)
    ensures g.bucketS == w
  {
    PassLabels(files, records, w, false, g);
    PassLabels(files, records, w, true, g);
    hide PassTable, BucketOf, ModelName, IsTimed;
  }

  /** A pass holds a group exactly when some timed record is labelled with it. */
  lemma PassLabels(files: map<Key, FileRow>, records: map<RecordId, Stored>, w: int, all: bool, g: LatencyLabel)
    ensures g in PassTable(files, records, w, all)
       <==> exists id | id in records :: IsTimed(files, records, id) && LabelIn(files, records, w, all, id) == g
  {
    var labels := Labelling(files, records, w, all);
    hide LabelIn;
    if g in labels.Values {
      var id :| id in labels && labels[id] == g;
    }
    if id :| id in records && IsTimed(files, records, id) && LabelIn(files, records, w, all, id) == g {
      assert labels[id] == g;
    }
  }

  /** A width's per-project pass meets no earlier key. */
  lemma ProjectPassFits(files: map<Key, FileRow>, records: map<RecordId, Stored>, n: nat)
    requires n < |WIDTH_LIST|
    ensures PassTable(files, records, WIDTH_LIST[n], false).Keys !! Inserted(files, records, n).Keys
    ensures PassTable(files, records, WIDTH_LIST[n], true).Keys !! Inserted(files, records, n).Keys
  {
    hide PassTable, Inserted;
    forall g, all | g in PassTable(files, records, WIDTH_LIST[n], all)
      ensures g !in Inserted(files, records, n)
    {
      PassLabels(files, records, WIDTH_LIST[n], all, g);
      if g in Inserted(files, records, n) {
        InsertedWidths(files, records, n, g);
        assert false;
      }
    }
  }

  /** A width's two passes share a key exactly when a timed record's project id is empty. */
  lemma PassesMeetExactly(files: map<Key, FileRow>, records: map<RecordId, Stored>, w: int)
    ensures PassTable(files, records, w, false).Keys !! PassTable(files, records, w, true).Keys
       <==> !ScopesCollide(files, records)
  {
    hide PassTable;
    if ScopesCollide(files, records) {
      var id :| id in records && id.file in files && Timed(records[id].record) && files[id.file].project == "";
      var g := LabelIn(files, records, w, true, id);
      assert IsTimed(files, records, id) && LabelIn(files, records, w, false, id) == g;
      PassLabels(files, records, w, false, g);
      PassLabels(files, records, w, true, g);
    } else {
      forall g | g in PassTable(files, records, w, false)
        ensures g !in PassTable(files, records, w, true)
      {
        PassLabels(files, records, w, false, g);
        PassLabels(files, records, w, true, g);
      }
    }
  }

  // ------------------------------------------------------------------
  // The rebuild
  // ------------------------------------------------------------------

  /** INSERT of a pass: fails when it would repeat a key the table holds. */
  method Insert(table: map<LatencyLabel, Members>, pass: map<LatencyLabel, Members>)
    returns (r: Option<map<LatencyLabel, Members>>)
    ensures r == if table.Keys !! pass.Keys then Some(table + pass) else None
  {
    if !(table.Keys !! pass.Keys) {
      return None;
    }
    r := Some(table + pass);
  }

  /** None models the raised key violation: it happens exactly when some timed record is
      stored under an empty project id.  Otherwise the two passes over every width leave
      each group's population. */
  method Rebuild(files: map<Key, FileRow>, records: map<RecordId, Stored>)
    returns (r: Option<map<LatencyLabel, Members>>)
    ensures r.None? <==> ScopesCollide(files, records)
    ensures r.Some? ==> r.value == LatencyTable(files, records)
  {
    hide PassTable, ScopesCollide, Groups, Labelling;
    var table: map<LatencyLabel, Members> := map[];
    for i := 0 to |WIDTH_LIST|
      invariant table == Inserted(files, records, i)
      invariant i > 0 ==> !ScopesCollide(files, records)
    {
      var w := WIDTH_LIST[i];
      ProjectPassFits(files, records, i);
      PassesMeetExactly(files, records, w);
      var byProject := OnePass(files, records, w, false);
      var first := Insert(table, byProject);
      assert first == Some(table + byProject);
      var overall := OnePass(files, records, w, true);
      var second := Insert(first.value, overall);
      if second.None? {
        return None;
      }
      table := second.value;
    }
    InsertedIsTable(files, records);
    return Some(table);
  }

  method OnePass(files: map<Key, FileRow>, records: map<RecordId, Stored>, w: int, all: bool)
    returns (pass: map<LatencyLabel, Members>)
    ensures pass == PassTable(files, records, w, all)
  {
    hide Groups, LabelIn, IsTimed;
    pass := GroupPass(Labelling(files, records, w, all), records);
  }

  lemma PassGroup(files: map<Key, FileRow>, records: map<RecordId, Stored>, w: int, all: bool, g: LatencyLabel)
    requires g in PassTable(files, records, w, all) && 0 < w && !ScopesCollide(files, records)
    ensures g.bucketS == w && (all <==> g.project == "")
    ensures PassTable(files, records, w, all)[g] == Population(files, records, g)
  {
    PassLabels(files, records, w, all, g);
    hide Bucket, ModelName;
    forall id
      ensures id in PassTable(files, records, w, all)[g] <==> id in Population(files, records, g)
    {
    }
  }

  lemma {:induction false} InsertedAt(files: map<Key, FileRow>, records: map<RecordId, Stored>, n: nat, g: LatencyLabel)
    requires n <= |WIDTH_LIST| && !ScopesCollide(files, records)
    ensures g in Inserted(files, records, n)
       <==> exists i, all | 0 <= i < n :: g in PassTable(files, records, WIDTH_LIST[i], all)
    ensures g in Inserted(files, records, n) ==>
      0 < g.bucketS && Inserted(files, records, n)[g] == Population(files, records, g)
  {
    hide PassTable, ScopesCollide, Population;
    if n > 0 {
      var w := WIDTH_LIST[n - 1];
      InsertedAt(files, records, n - 1, g);
      if g in PassTable(files, records, w, true) {
        PassGroup(files, records, w, true, g);
      }
      if g in PassTable(files, records, w, false) {
        PassGroup(files, records, w, false, g);
      }
    }
  }

  lemma InsertedIsTable(files: map<Key, FileRow>, records: map<RecordId, Stored>)
    requires !ScopesCollide(files, records)
    ensures Inserted(files, records, |WIDTH_LIST|) == LatencyTable(files, records)
  {
    hide PassTable, ScopesCollide, Population, Inserted;
    forall g
      ensures g in Inserted(files, records, |WIDTH_LIST|) <==> g in LatencyTable(files, records)
      ensures g in Inserted(files, records, |WIDTH_LIST|) ==>
        Inserted(files, records, |WIDTH_LIST|)[g] == LatencyTable(files, records)[g]
    {
      InsertedAt(files, records, |WIDTH_LIST|, g);
      GroupListed(files, records, g);
    }
  }

  /** The table's groups are those of all the passes. */
  lemma GroupListed(files: map<Key, FileRow>, records: map<RecordId, Stored>, g: LatencyLabel)
    ensures g in LatencyGroups(files, records)
       <==> exists i, all | 0 <= i < |WIDTH_LIST| :: g in PassTable(files, records, WIDTH_LIST[i], all)
    ensures g in LatencyGroups(files, records) ==> 0 < g.bucketS
  {
    WidthsListed();
    hide PassTable, BucketOf, ModelName, WIDTH_LIST, WIDTHS;
    if g in LatencyGroups(files, records) {
      var w, id :| w in WIDTHS && id in records && IsTimed(files, records, id)
        && (g == LabelIn(files, records, w, false, id) || g == LabelIn(files, records, w, true, id));
      var i :| 0 <= i < |WIDTH_LIST| && WIDTH_LIST[i] == w;
      PassLabels(files, records, w, false, g);
      PassLabels(files, records, w, true, g);
    }
    if i, all :| 0 <= i < |WIDTH_LIST| && g in PassTable(files, records, WIDTH_LIST[i], all) {
      var w := WIDTH_LIST[i];
      PassLabels(files, records, w, all, g);
      var id :| id in records && IsTimed(files, records, id) && LabelIn(files, records, w, all, id) == g;
      assert w in WIDTHS && Timed(records[id].record);
      if all {
        assert g == LatencyLabel(w, BucketOf(records[id].record, w), "", ModelName(records[id].record.model));
      } else {
        assert g
            == LatencyLabel(w, BucketOf(records[id].record, w), files[id.file].project,
                ModelName(records[id].record.model));
      }
    }
  }

  lemma WidthsListed()
    ensures forall w :: w in WIDTHS <==> exists i | 0 <= i < |WIDTH_LIST| :: WIDTH_LIST[i] == w
    ensures forall w | w in WIDTHS :: 0 < w
    ensures |WIDTH_LIST| == 4
  {
    assert WIDTH_LIST[0] == 3600 && WIDTH_LIST[1] == 21600 && WIDTH_LIST[2] == 43200 && WIDTH_LIST[3] == 86400;
  }
}
