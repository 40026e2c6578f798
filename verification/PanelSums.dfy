/** What the panels add up, said of the stored records and calls alone: a duplicated
    record counts once, and each column sums its own field (backend/ingest.py:529-547,
    690-776, backend/api_dashboard.py:80-121, backend/api.py:161-180). */
module PanelSums {
  import opened Wrappers
  import opened Tables
  import opened Plan
  import opened Grouping
  import opened Rollups
  import opened Dashboard
  import BinPicker
  import Canonical
  import Ingest
  import IngestHistory
  import TextOrder
  import Transcript

  // ------------------------------------------------------------------
  // Sums over a finite map
  // ------------------------------------------------------------------

  ghost function Sum<K>(m: map<K, int>): int
    decreases |m.Keys|
  {
    if m.Keys == {} then 0
    else
      var k :| k in m.Keys;
      Fewer(m, k);
      m[k] + Sum(m - {k})
  }

  lemma Fewer<K>(m: map<K, int>, k: K)
    requires k in m
    ensures (m - {k}).Keys == m.Keys - {k} && |(m - {k}).Keys| < |m.Keys|
  {
  }

  lemma {:induction false} SumTake<K>(m: map<K, int>, k: K)
    requires k in m
    ensures Sum(m) == m[k] + Sum(m - {k})
    decreases |m.Keys|
  {
    var j :| j in m.Keys && Sum(m) == m[j] + Sum(m - {j});
    if j != k {
      hide *;
      Fewer(m, j);
      Fewer(m, k);
      TakeBoth(m, j, k);
      SumTake(m - {j}, k);
      SumTake(m - {k}, j);
    }
  }

  lemma TakeBoth<K>(m: map<K, int>, j: K, k: K)
    requires j in m && k in m && j != k
    ensures k in m - {j} && (m - {j})[k] == m[k] && j in m - {k} && (m - {k})[j] == m[j]
    ensures m - {j} - {k} == m - {k} - {j}
  {
  }

  ghost predicate Additive(of: Amounts -> int) {
    of(ZERO) == 0 && forall x, y :: of(Plus(x, y)) == of(x) + of(y)
  }

  function Column<K, L>(rows: map<K, Entry<L>>, of: Amounts -> int): map<K, int> {
    map k | k in rows :: of(rows[k].amounts)
  }

  /** A total's column is the sum of that column. */
  lemma {:induction false} TotalOfColumn<K, L>(rows: map<K, Entry<L>>, of: Amounts -> int)
    requires Additive(of)
    ensures of(Total(rows)) == Sum(Column(rows, of))
    decreases |rows.Keys|
  {
    if rows.Keys == {} {
      TotalNone(rows);
    } else {
      var k :| k in rows;
      Shorter(rows, k);
      TotalOfColumn(rows - {k}, of);
      ColumnLess(rows, of, k);
      hide *;
      TotalTake(rows, k);
      SumTake(Column(rows, of), k);
      AddsUp(of, rows[k].amounts, Total(rows - {k}));
    }
  }

  lemma ColumnLess<K, L>(rows: map<K, Entry<L>>, of: Amounts -> int, k: K)
    requires k in rows
    ensures k in Column(rows, of) && Column(rows, of)[k] == of(rows[k].amounts)
    ensures Column(rows, of) - {k} == Column(rows - {k}, of)
  {
  }

  lemma AddsUp(of: Amounts -> int, x: Amounts, y: Amounts)
    requires Additive(of)
    ensures of(Plus(x, y)) == of(x) + of(y)
  {
  }

  /** Summing ones and noughts counts the ones. */
  lemma {:induction false} SumCounts<K>(m: map<K, int>, ones: set<K>)
    requires ones <= m.Keys && forall k | k in m :: m[k] == if k in ones then 1 else 0
    ensures Sum(m) == |ones|
    decreases |m.Keys|
  {
    if m.Keys != {} {
      var k :| k in m;
      Fewer(m, k);
      SumCounts(m - {k}, ones - {k});
      SumTake(m, k);
      if k in ones {
        assert ones == (ones - {k}) + {k};
      } else {
        assert ones - {k} == ones;
      }
    }
  }

  lemma ColumnSum<K, L>(rows: map<K, Entry<L>>, of: Amounts -> int, m: map<K, int>)
    requires Additive(of) && m.Keys == rows.Keys && forall k | k in rows :: of(rows[k].amounts) == m[k]
    ensures of(Total(rows)) == Sum(m)
  {
    hide Sum, Total, Additive;
    TotalOfColumn(rows, of);
    assert Column(rows, of) == m;
  }

  function N(x: Amounts): int { x.n }

  function A(x: Amounts): int { x.a }

  function B(x: Amounts): int { x.b }

  function C(x: Amounts): int { x.c }

  function D(x: Amounts): int { x.d }

  lemma AllAdditive()
    ensures Additive(N) && Additive(A) && Additive(B) && Additive(C) && Additive(D)
  {
  }

  lemma Columns(x: Amounts)
    ensures x == Amounts(N(x), A(x), B(x), C(x), D(x))
  {
  }

  /** All five columns at once. */
  lemma TotalOfColumns<K, L>(rows: map<K, Entry<L>>, n: map<K, int>, a: map<K, int>, b: map<K, int>, c: map<K, int>,
                             d: map<K, int>)
    requires n.Keys == a.Keys == b.Keys == c.Keys == d.Keys == rows.Keys
    requires forall k | k in rows :: rows[k].amounts == Amounts(n[k], a[k], b[k], c[k], d[k])
    ensures Total(rows) == Amounts(Sum(n), Sum(a), Sum(b), Sum(c), Sum(d))
  {
    hide Sum, Total, Additive;
    AllAdditive();
    ColumnSum(rows, N, n);
    ColumnSum(rows, A, a);
    ColumnSum(rows, B, b);
    ColumnSum(rows, C, c);
    ColumnSum(rows, D, d);
    Columns(Total(rows));
  }

  // ------------------------------------------------------------------
  // Which records speak
  // ------------------------------------------------------------------

  /** Earlier in ORDER BY file_key, line_num. */
  ghost predicate Earlier(a: RecordId, b: RecordId) {
    TextOrder.Precedes(a.file, b.file) || (a.file == b.file && a.line < b.line)
  }

  /** It has no uuid, or no stored record of its uuid is earlier. */
  ghost predicate Speaks(records: map<RecordId, Stored>, id: RecordId)
    requires id in records
  {
    records[id].record.uuid.None?
    || forall o | o in records && records[o].record.uuid == records[id].record.uuid :: !Earlier(o, id)
  }

  lemma NotAfterExactly(a: RecordId, b: RecordId)
    ensures Canonical.NotAfter(a, b) <==> !Earlier(b, a)
  {
    TextOrder.PrecedesExactly(b.file, a.file);
    TextOrder.Connected(a.file, b.file);
    TextOrder.Reflexive(a.file);
    if TextOrder.AtMost(a.file, b.file) && TextOrder.AtMost(b.file, a.file) {
      TextOrder.Antisymmetric(a.file, b.file);
    }
    hide TextOrder.Precedes, TextOrder.AtMost;
  }

  lemma LeadsExactly(records: map<RecordId, Stored>, id: RecordId)
    requires id in records
    ensures Canonical.Leads(records, id) <==> Speaks(records, id)
  {
    hide Canonical.NotAfter, Earlier;
    forall o
      ensures Canonical.NotAfter(id, o) <==> !Earlier(o, id)
    {
      NotAfterExactly(id, o);
    }
  }

  /** After any history ending finished, a stored record contributes to the usage relation,
      rolled up or live, exactly when it is stamped and speaks for its uuid. */
  lemma ContributesExactly(history: seq<IngestHistory.Event>, id: RecordId)
    requires IngestHistory.Feasible(history) && history != [] && history[|history| - 1].stage.Finished?
    ensures var b := IngestHistory.StateAfter(history).base;
      var contributes := id in b.records && b.records[id].record.ts.Some? && Speaks(b.records, id);
      && (id in UsageRows(b.files, b.records) <==> contributes)
      && (id in LiveUsage(b.files, b.records) <==> contributes)
  {
    IngestHistory.FinishedRunLeavesConsistency(history);
    IngestHistory.EveryStateIsValid(history);
    hide IngestHistory.Feasible, IngestHistory.StateAfter;
    FlaggedContributes(IngestHistory.StateAfter(history), id);
  }

  lemma FlaggedContributes(s: Ingest.Store, id: RecordId)
    requires IngestHistory.Consistent(s) && IngestHistory.Valid(s.base)
    ensures var b := s.base;
      var contributes := id in b.records && b.records[id].record.ts.Some? && Speaks(b.records, id);
      && (id in UsageRows(b.files, b.records) <==> contributes)
      && (id in LiveUsage(b.files, b.records) <==> contributes)
  {
    hide Speaks, Canonical.Leads, UsageTable, ToolTable, LatencyTable, UsageEntry, Trunc, ProjectOf, SessionOf, IsMain;
    if id in s.base.records {
      LeadsExactly(s.base.records, id);
    }
  }

  // ------------------------------------------------------------------
  // Usage panels
  // ------------------------------------------------------------------

  /** What a panel can filter and group a record by. */
  function RecordColumns(id: RecordId, r: Transcript.Record, w: int): UsageColumns
    requires 0 < w && r.ts.Some?
  {
    UsageColumns(SessionOf(id.file), ProjectOf(id.file), Bucket(r.ts.value, w),
                 if r.model == "" then "unknown" else r.model, IsMain(id.file))
  }

  /** The records a panel shows from an instant on. */
  ghost function RecordsShown(records: map<RecordId, Stored>, from: int, w: int,
                              wanted: UsageColumns -> bool): set<RecordId>
    requires 0 < w
  {
    set id | id in records && records[id].record.ts.Some? && from <= records[id].record.ts.value
             && Speaks(records, id) && wanted(RecordColumns(id, records[id].record, w))
  }

  lemma ShownRow(s: Ingest.Store, from: int, w: int, wanted: UsageColumns -> bool, id: RecordId)
    requires 0 < w && IngestHistory.Consistent(s) && IngestHistory.Valid(s.base)
    ensures var live := SelectUsage(LiveUsage(s.base.files, s.base.records), from, w, wanted);
      && (id in live <==> id in RecordsShown(s.base.records, from, w, wanted))
      && (id in live ==>
            var r := s.base.records[id].record;
            && live[id].amounts == Amounts(1, r.tally.uncached, r.tally.output, r.tally.read, r.cost)
            && live[id].group.session == SessionOf(id.file)
            && r.ts == Some(live[id].first) && r.ts == Some(live[id].last))
  {
    FlaggedContributes(s, id);
    hide UsageRows, Speaks, Canonical.Leads, UsageTable, ToolTable, LatencyTable, Bucket, ProjectOf, SessionOf, IsMain,
         IngestHistory.Consistent;
  }

  /** How many these records are, and their uncached, output and cached tokens and cost. */
  ghost function UsageOf(records: map<RecordId, Stored>, ids: set<RecordId>): Amounts
    requires ids <= records.Keys
  {
    Amounts(|ids|,
            Sum(map id | id in ids :: records[id].record.tally.uncached),
            Sum(map id | id in ids :: records[id].record.tally.output),
            Sum(map id | id in ids :: records[id].record.tally.read),
            Sum(map id | id in ids :: records[id].record.cost))
  }

  lemma UsageCount(records: map<RecordId, Stored>, ids: set<RecordId>)
    requires ids <= records.Keys
    ensures UsageOf(records, ids).n == |ids|
  {
  }

  lemma TotalIsUsage(rows: map<RecordId, Entry<UsageLabel>>, records: map<RecordId, Stored>, ids: set<RecordId>)
    requires rows.Keys == ids <= records.Keys
    requires forall id | id in ids ::
      var r := records[id].record;
      rows[id].amounts == Amounts(1, r.tally.uncached, r.tally.output, r.tally.read, r.cost)
    ensures Total(rows) == UsageOf(records, ids)
  {
    hide Total, Sum;
    OnesCount(ids);
    TotalOfColumns(rows, Ones(ids),
                   map id | id in ids :: records[id].record.tally.uncached,
                   map id | id in ids :: records[id].record.tally.output,
                   map id | id in ids :: records[id].record.tally.read,
                   map id | id in ids :: records[id].record.cost);
  }

  /** After any history ending finished, every usage panel at every width the picker gives
      counts the stamped records that speak for their uuid, from its effective start, and
      sums their uncached, output and cached tokens and their cost. */
  lemma UsagePanelAddsUp(history: seq<IngestHistory.Event>, b: int, span: int, since: int,
                         wanted: UsageColumns -> bool)
    requires IngestHistory.Feasible(history) && history != [] && history[|history| - 1].stage.Finished?
    requires BinPicker.Coarsest(b, span, 1)
    ensures 0 < b
    ensures var s := IngestHistory.StateAfter(history);
      var shown := RecordsShown(s.base.records, UsageSince(b, since), b, wanted);
      shown <= s.base.records.Keys && PanelSum(s, b, since, wanted) == UsageOf(s.base.records, shown)
  {
    hide *;
    WideBucketsAreWholeHours(b, span);
    PanelsShowTheRecords(history, b, span, since, wanted);
    IngestHistory.FinishedRunLeavesConsistency(history);
    IngestHistory.EveryStateIsValid(history);
    LiveAddsUp(IngestHistory.StateAfter(history), UsageSince(b, since), b, wanted);
  }

  lemma LiveAddsUp(s: Ingest.Store, from: int, w: int, wanted: UsageColumns -> bool)
    requires 0 < w && IngestHistory.Consistent(s) && IngestHistory.Valid(s.base)
    ensures var shown := RecordsShown(s.base.records, from, w, wanted);
      && shown <= s.base.records.Keys
      && Total(SelectUsage(LiveUsage(s.base.files, s.base.records), from, w, wanted)) == UsageOf(s.base.records, shown)
  {
    hide *;
    var records := s.base.records;
    var shown := RecordsShown(records, from, w, wanted);
    var live := SelectUsage(LiveUsage(s.base.files, records), from, w, wanted);
    ShownAreStored(records, from, w, wanted);
    forall id
      ensures id in live <==> id in shown
      ensures id in live && id in records ==>
        var r := records[id].record;
        live[id].amounts == Amounts(1, r.tally.uncached, r.tally.output, r.tally.read, r.cost)
    {
      ShownRow(s, from, w, wanted, id);
    }
    assert live.Keys == shown;
    TotalIsUsage(live, records, shown);
  }

  lemma ShownAreStored(records: map<RecordId, Stored>, from: int, w: int, wanted: UsageColumns -> bool)
    requires 0 < w
    ensures RecordsShown(records, from, w, wanted) <= records.Keys
  {
  }

  /** Some shown record is stamped first, some last, and every one in between. */
  ghost predicate StampsSpan(records: map<RecordId, Stored>, ids: set<RecordId>, first: int, last: int)
    requires ids <= records.Keys
  {
    && (exists id | id in ids :: records[id].record.ts == Some(first))
    && (exists id | id in ids :: records[id].record.ts == Some(last))
    && (forall id | id in ids && records[id].record.ts.Some? :: first <= records[id].record.ts.value <= last)
  }

  /** The panel's sessions are those of the same records' keys, and its first and last times
      the earliest and latest of their stamps. */
  lemma UsagePanelCovers(history: seq<IngestHistory.Event>, b: int, span: int, since: int,
                         wanted: UsageColumns -> bool, first: int, last: int)
    requires IngestHistory.Feasible(history) && history != [] && history[|history| - 1].stage.Finished?
    requires BinPicker.Coarsest(b, span, 1)
    ensures 0 < b
    ensures var s := IngestHistory.StateAfter(history);
      var shown := RecordsShown(s.base.records, UsageSince(b, since), b, wanted);
      && shown <= s.base.records.Keys
      && PanelSessions(s, b, since, wanted) == (set id | id in shown :: SessionOf(id.file))
      && (PanelSpan(s, b, since, wanted, first, last) <==> StampsSpan(s.base.records, shown, first, last))
  {
    hide *;
    WideBucketsAreWholeHours(b, span);
    PanelsShowTheRecords(history, b, span, since, wanted);
    IngestHistory.FinishedRunLeavesConsistency(history);
    IngestHistory.EveryStateIsValid(history);
    LiveCovers(IngestHistory.StateAfter(history), UsageSince(b, since), b, wanted, first, last);
  }

  lemma LiveCovers(s: Ingest.Store, from: int, w: int, wanted: UsageColumns -> bool, first: int, last: int)
    requires 0 < w && IngestHistory.Consistent(s) && IngestHistory.Valid(s.base)
    ensures var shown := RecordsShown(s.base.records, from, w, wanted);
      var live := SelectUsage(LiveUsage(s.base.files, s.base.records), from, w, wanted);
      && shown <= s.base.records.Keys
      && Sessions(live) == (set id | id in shown :: SessionOf(id.file))
      && (IsSpan(live, first, last) <==> StampsSpan(s.base.records, shown, first, last))
  {
    hide *;
    var records := s.base.records;
    var shown := RecordsShown(records, from, w, wanted);
    var live := SelectUsage(LiveUsage(s.base.files, records), from, w, wanted);
    ShownAreStored(records, from, w, wanted);
    forall id
      ensures id in live <==> id in shown
      ensures id in live && id in records ==>
        && live[id].group.session == SessionOf(id.file)
        && records[id].record.ts == Some(live[id].first) && records[id].record.ts == Some(live[id].last)
    {
      ShownRow(s, from, w, wanted, id);
    }
    assert live.Keys == shown;
    RowsCover(live, records, shown, first, last);
  }

  lemma RowsCover(rows: map<RecordId, Entry<UsageLabel>>, records: map<RecordId, Stored>, ids: set<RecordId>,
                  first: int, last: int)
    requires rows.Keys == ids <= records.Keys
    requires forall id | id in ids ::
      && rows[id].group.session == SessionOf(id.file)
      && records[id].record.ts == Some(rows[id].first) && records[id].record.ts == Some(rows[id].last)
    ensures Sessions(rows) == (set id | id in ids :: SessionOf(id.file))
    ensures IsSpan(rows, first, last) <==> StampsSpan(records, ids, first, last)
  {
    hide SessionOf;
    assert forall id | id in ids :: rows[id].first == rows[id].last == records[id].record.ts.value;
  }

  // ------------------------------------------------------------------
  // Duplicates count once
  // ------------------------------------------------------------------

  ghost predicate StampedFrom(records: map<RecordId, Stored>, id: RecordId, from: int) {
    id in records && records[id].record.ts.Some? && from <= records[id].record.ts.value
  }

  /** The records without a uuid stamped from an instant on. */
  ghost function Anonymous(records: map<RecordId, Stored>, from: int): set<RecordId> {
    set id | id in records && StampedFrom(records, id, from) && records[id].record.uuid.None?
  }

  /** The uuids whose earliest record is stamped from an instant on. */
  ghost function Uuids(records: map<RecordId, Stored>, from: int): set<string> {
    set id | id in records && StampedFrom(records, id, from) && records[id].record.uuid.Some? && Speaks(records, id) ::
      records[id].record.uuid.value
  }

  /** With every column wanted, a panel counts each uuid-less record once and each uuid
      once, however many files repeat it: by its earliest record. */
  lemma DuplicatesCountOnce(history: seq<IngestHistory.Event>, b: int, span: int, since: int,
                            all: UsageColumns -> bool)
    requires IngestHistory.Feasible(history) && history != [] && history[|history| - 1].stage.Finished?
    requires BinPicker.Coarsest(b, span, 1) && forall c :: all(c)
    ensures 0 < b
    ensures var s := IngestHistory.StateAfter(history);
      var from := UsageSince(b, since);
      PanelSum(s, b, since, all).n
      == |Anonymous(s.base.records, from)| + |Uuids(s.base.records, from)|
  {
    hide *;
    var s := IngestHistory.StateAfter(history);
    WideBucketsAreWholeHours(b, span);
    UsagePanelAddsUp(history, b, span, since, all);
    UsageCount(s.base.records, RecordsShown(s.base.records, UsageSince(b, since), b, all));
    ShownByUuid(s.base.records, UsageSince(b, since), b, all);
  }

  lemma AllShown(records: map<RecordId, Stored>, from: int, w: int, all: UsageColumns -> bool)
    requires 0 < w && forall c :: all(c)
    ensures RecordsShown(records, from, w, all)
         == Anonymous(records, from)
            + set id | id in records && StampedFrom(records, id, from) && records[id].record.uuid.Some?
                       && Speaks(records, id)
  {
    hide RecordColumns, Earlier;
  }

  lemma ShownByUuid(records: map<RecordId, Stored>, from: int, w: int, all: UsageColumns -> bool)
    requires 0 < w && forall c :: all(c)
    ensures |RecordsShown(records, from, w, all)| == |Anonymous(records, from)| + |Uuids(records, from)|
  {
    hide RecordsShown, Speaks, StampedFrom;
    var named := set id | id in records && StampedFrom(records, id, from) && records[id].record.uuid.Some?
                          && Speaks(records, id);
    AllShown(records, from, w, all);
    UuidOfSpeakers(records, named);
    hide RecordsShown, Speaks, StampedFrom;
    assert Anonymous(records, from) * named == {};
    assert (set id | id in named :: records[id].record.uuid.value) == Uuids(records, from);
  }

  lemma {:induction false} UuidOfSpeakers(records: map<RecordId, Stored>, ids: set<RecordId>)
    requires forall id | id in ids :: id in records && records[id].record.uuid.Some? && Speaks(records, id)
    ensures |set id | id in ids :: records[id].record.uuid.value| == |ids|
    decreases |ids|
  {
    if ids != {} {
      var k :| k in ids;
      var rest := ids - {k};
      UuidOfSpeakers(records, rest);
      forall id | id in rest
        ensures records[id].record.uuid != records[k].record.uuid
      {
        if records[id].record.uuid == records[k].record.uuid {
          OneSpeaker(records, id, k);
        }
      }
      var uuids := set id | id in rest :: records[id].record.uuid.value;
      assert ids == rest + {k};
      assert (set id | id in ids :: records[id].record.uuid.value) == uuids + {records[k].record.uuid.value};
    }
  }

  lemma OneSpeaker(records: map<RecordId, Stored>, i: RecordId, j: RecordId)
    requires i in records && j in records && Speaks(records, i) && Speaks(records, j)
    requires records[i].record.uuid == records[j].record.uuid && records[i].record.uuid.Some?
    ensures i == j
  {
    NotAfterExactly(i, j);
    NotAfterExactly(j, i);
    Canonical.NotAfterTotal(i, j);
    hide Canonical.NotAfter, Earlier;
    if i != j {
      Canonical.NotAfterAntisymmetric(i, j);
    }
  }

  // ------------------------------------------------------------------
  // Tool panels
  // ------------------------------------------------------------------

  /** The calls a panel shows from an instant on. */
  function CallsShown(tools: map<ToolId, Transcript.ToolUse>, from: int, w: int,
                      wanted: ToolColumns -> bool): set<ToolId>
    requires 0 < w
  {
    set id | id in tools && tools[id].ts.Some? && from <= tools[id].ts.value
             && wanted(ToolColumns(Bucket(tools[id].ts.value, w), ProjectOf(id.file), tools[id].call.name))
  }

  lemma ShownCall(s: Ingest.Store, from: int, w: int, wanted: ToolColumns -> bool, id: ToolId)
    requires 0 < w && IngestHistory.Valid(s.base)
    ensures var live := SelectTools(LiveTools(s.base.files, s.base.tools), from, w, wanted);
      && (id in live <==> id in CallsShown(s.base.tools, from, w, wanted))
      && (id in live ==>
            var t := s.base.tools[id];
            live[id].amounts == Amounts(1, if t.isError.Some? then 1 else 0, if t.isError == Some(true) then 1 else 0,
                                        t.call.churn.added, t.call.churn.deleted))
  {
    hide Bucket, ProjectOf, SessionOf, IsMain;
  }

  /** How many these calls are, how many have a verdict and how many failed, and the lines
      they added and deleted. */
  ghost function CallsOf(tools: map<ToolId, Transcript.ToolUse>, ids: set<ToolId>): Amounts
    requires ids <= tools.Keys
  {
    Amounts(|ids|,
            |set id | id in ids && tools[id].isError.Some?|,
            |set id | id in ids && tools[id].isError == Some(true)|,
            Sum(map id | id in ids :: tools[id].call.churn.added),
            Sum(map id | id in ids :: tools[id].call.churn.deleted))
  }

  function Ones<K>(ids: set<K>): map<K, int> {
    map id | id in ids :: 1
  }

  lemma OnesCount<K>(ids: set<K>)
    ensures Ones(ids).Keys == ids && (forall id | id in ids :: Ones(ids)[id] == 1) && Sum(Ones(ids)) == |ids|
  {
    SumCounts(Ones(ids), ids);
  }

  function VerdictsOf(tools: map<ToolId, Transcript.ToolUse>, ids: set<ToolId>): map<ToolId, int>
    requires ids <= tools.Keys
  {
    map id | id in ids :: if tools[id].isError.Some? then 1 else 0
  }

  lemma VerdictsCount(tools: map<ToolId, Transcript.ToolUse>, ids: set<ToolId>)
    requires ids <= tools.Keys
    ensures VerdictsOf(tools, ids).Keys == ids
    ensures forall id | id in ids :: VerdictsOf(tools, ids)[id] == if tools[id].isError.Some? then 1 else 0
    ensures Sum(VerdictsOf(tools, ids)) == |set id | id in ids && tools[id].isError.Some?|
  {
    SumCounts(VerdictsOf(tools, ids), set id | id in ids && tools[id].isError.Some?);
  }

  function FailuresOf(tools: map<ToolId, Transcript.ToolUse>, ids: set<ToolId>): map<ToolId, int>
    requires ids <= tools.Keys
  {
    map id | id in ids :: if tools[id].isError == Some(true) then 1 else 0
  }

  lemma FailuresCount(tools: map<ToolId, Transcript.ToolUse>, ids: set<ToolId>)
    requires ids <= tools.Keys
    ensures FailuresOf(tools, ids).Keys == ids
    ensures forall id | id in ids :: FailuresOf(tools, ids)[id] == if tools[id].isError == Some(true) then 1 else 0
    ensures Sum(FailuresOf(tools, ids)) == |set id | id in ids && tools[id].isError == Some(true)|
  {
    SumCounts(FailuresOf(tools, ids), set id | id in ids && tools[id].isError == Some(true));
  }

  lemma TotalIsCalls(rows: map<ToolId, Entry<ToolLabel>>, tools: map<ToolId, Transcript.ToolUse>, ids: set<ToolId>)
    requires rows.Keys == ids <= tools.Keys
    requires forall id | id in ids ::
      var t := tools[id];
      rows[id].amounts == Amounts(1, if t.isError.Some? then 1 else 0, if t.isError == Some(true) then 1 else 0,
                                  t.call.churn.added, t.call.churn.deleted)
    ensures Total(rows) == CallsOf(tools, ids)
  {
    hide Total, Sum, Ones, VerdictsOf, FailuresOf;
    OnesCount(ids);
    VerdictsCount(tools, ids);
    FailuresCount(tools, ids);
    TotalOfColumns(rows, Ones(ids), VerdictsOf(tools, ids), FailuresOf(tools, ids),
                   map id | id in ids :: tools[id].call.churn.added,
                   map id | id in ids :: tools[id].call.churn.deleted);
  }

  /** After any history ending finished, every tool panel counts the stamped calls from its
      effective start, those with a verdict and those that failed, and sums the lines added
      and the lines deleted. */
  lemma ToolPanelAddsUp(history: seq<IngestHistory.Event>, b: int, span: int, since: int,
                        wanted: ToolColumns -> bool)
    requires IngestHistory.Feasible(history) && history != [] && history[|history| - 1].stage.Finished?
    requires BinPicker.Coarsest(b, span, 1)
    ensures 0 < b
    ensures var s := IngestHistory.StateAfter(history);
      var shown := CallsShown(s.base.tools, ToolSince(b, since), b, wanted);
      shown <= s.base.tools.Keys && ToolSum(s, b, since, wanted) == CallsOf(s.base.tools, shown)
  {
    hide *;
    WideBucketsAreWholeHours(b, span);
    ToolPanelsShowTheCalls(history, b, span, since, wanted);
    IngestHistory.EveryStateIsValid(history);
    CallsAddUp(IngestHistory.StateAfter(history), ToolSince(b, since), b, wanted);
  }

  lemma CallsAddUp(s: Ingest.Store, from: int, w: int, wanted: ToolColumns -> bool)
    requires 0 < w && IngestHistory.Valid(s.base)
    ensures var shown := CallsShown(s.base.tools, from, w, wanted);
      && shown <= s.base.tools.Keys
      && Total(SelectTools(LiveTools(s.base.files, s.base.tools), from, w, wanted)) == CallsOf(s.base.tools, shown)
  {
    hide *;
    var tools := s.base.tools;
    var shown := CallsShown(tools, from, w, wanted);
    var live := SelectTools(LiveTools(s.base.files, tools), from, w, wanted);
    ShownAreCalls(tools, from, w, wanted);
    forall id
      ensures id in live <==> id in shown
      ensures id in live && id in tools ==>
        var t := tools[id];
        live[id].amounts == Amounts(1, if t.isError.Some? then 1 else 0, if t.isError == Some(true) then 1 else 0,
                                    t.call.churn.added, t.call.churn.deleted)
    {
      ShownCall(s, from, w, wanted, id);
    }
    assert live.Keys == shown;
    TotalIsCalls(live, tools, shown);
  }

  lemma ShownAreCalls(tools: map<ToolId, Transcript.ToolUse>, from: int, w: int, wanted: ToolColumns -> bool)
    requires 0 < w
    ensures CallsShown(tools, from, w, wanted) <= tools.Keys
  {
  }
}
