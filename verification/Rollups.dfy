/** Why the pre-aggregated answers equal the live ones (backend/api_dashboard.py
    `_roll_source`, backend/api.py `_tool_source`, `_latency_rollup_rows`), and
    exactly when they do.  A panel's WHERE filter and one value of its GROUP BY are
    an arbitrary predicate over the columns both sources expose. */
module Rollups {
  import opened Wrappers
  import opened Tables
  import opened Grouping
  import Transcript

  // ------------------------------------------------------------------
  // Floors of floors
  // ------------------------------------------------------------------

  lemma AtLeastOneWhole(k: int, d: int)
    requires 0 < d && 1 <= k
    ensures d <= k * d
  {
  }

  lemma QuotientUnique(p: int, q: int, r: int, s: int, d: int)
    requires 0 < d && 0 <= r < d && 0 <= s < d && p * d + r == q * d + s
    ensures p == q
  {
    var k := p - q;
    assert k * d == p * d - q * d && (-k) * d == -(k * d);
    if 1 <= k {
      AtLeastOneWhole(k, d);
    } else if k <= -1 {
      AtLeastOneWhole(-k, d);
    }
  }

  lemma QuotientIs(x: int, q: int, r: int, d: int)
    requires 0 < d && x == q * d + r && 0 <= r < d
    ensures x / d == q
  {
    QuotientUnique(x / d, q, x % d, r, d);
  }

  /** Rounding down to the hour does not change a bucket of whole hours. */
  lemma BucketOfHour(t: int, w: int)
    requires 0 < w && w % 3600 == 0
    ensures BucketStart(Trunc(t), w) == BucketStart(t, w)
    ensures Bucket(Trunc(t), w) == Bucket(t, w)
  {
    var m := w / 3600;
    var d := w * SECOND;
    assert d == m * HOUR;
    var hours := t / HOUR;
    var q, s := hours / m, hours % m;
    assert hours == q * m + s;
    assert Trunc(t) == hours * HOUR;
    HoursInBucket(q, m, s);
    QuotientIs(Trunc(t), q, s * HOUR, d);
    QuotientIs(t, q, s * HOUR + t % HOUR, d);
  }

  lemma HoursInBucket(q: int, m: int, s: int)
    requires 0 < m && 0 <= s < m
    ensures (q * m + s) * HOUR == q * (m * HOUR) + s * HOUR
    ensures 0 <= s * HOUR && s * HOUR + HOUR <= m * HOUR
  {
    assert (q * m + s) * HOUR == (q * m) * HOUR + s * HOUR;
    assert (q * m) * HOUR == q * (m * HOUR);
  }

  /** An instant is past a whole hour exactly when its own hour is. */
  lemma HourBound(since: int, t: int)
    ensures Trunc(since) <= t <==> Trunc(since) <= Trunc(t)
  {
  }

  function CeilHour(t: int): int {
    if t % HOUR == 0 then t else Trunc(t) + HOUR
  }

  /** An instant's hour is past `since` exactly when the instant is past the next whole hour. */
  lemma CeilBound(since: int, t: int)
    ensures since <= Trunc(t) <==> CeilHour(since) <= t
  {
  }

  // ------------------------------------------------------------------
  // The refinement, for any relation
  // ------------------------------------------------------------------

  /** Same keys, same times and amounts; the groups they claim may differ. */
  ghost predicate SameContent<K, L>(a: map<K, Entry<L>>, b: map<K, Entry<L>>) {
    a.Keys == b.Keys
    && forall k | k in a :: a[k].first == b[k].first && a[k].last == b[k].last && a[k].amounts == b[k].amounts
  }

  lemma {:induction false} SameTotal<K, L>(a: map<K, Entry<L>>, b: map<K, Entry<L>>)
    requires SameContent(a, b)
    ensures Total(a) == Total(b)
    decreases |a.Keys|
  {
    if a.Keys == {} {
      TotalNone(a);
      TotalNone(b);
    } else {
      var k :| k in a;
      Shorter(a, k);
      Shorter(b, k);
      SameTotal(a - {k}, b - {k});
      hide Total;
      TotalTake(a, k);
      TotalTake(b, k);
    }
  }

  lemma SameSpan<K, L>(a: map<K, Entry<L>>, b: map<K, Entry<L>>, first: int, last: int)
    requires SameContent(a, b)
    ensures IsSpan(a, first, last) <==> IsSpan(b, first, last)
  {
    if IsSpan(a, first, last) {
      var i :| i in a && a[i].first == first;
      var j :| j in a && a[j].last == last;
      assert b[i].first == first && b[j].last == last;
    }
    if IsSpan(b, first, last) {
      var i :| i in b && b[i].first == first;
      var j :| j in b && b[j].last == last;
      assert a[i].first == first && a[j].last == last;
    }
  }

  /** Both relations give the same sums, and the same earliest and latest times. */
  ghost predicate SameAnswer<K, J, L>(a: map<K, Entry<L>>, b: map<J, Entry<L>>) {
    Total(a) == Total(b) && forall first, last :: IsSpan(a, first, last) <==> IsSpan(b, first, last)
  }

  lemma GroupsAnswerForRows<K, L>(rows: map<K, Entry<L>>, labels: set<L>, picked: map<K, Entry<L>>)
    requires labels <= Labels(rows) && SameContent(Part(rows, labels), picked)
    ensures SameAnswer(Cells(rows, labels), picked)
  {
    RegroupTotal(rows, labels);
    SameTotal(Part(rows, labels), picked);
    hide Total, IsSpan, Cells, Part, SameContent;
    forall first, last
      ensures IsSpan(Cells(rows, labels), first, last) <==> IsSpan(picked, first, last)
    {
      RegroupSpan(rows, labels, first, last);
      SameSpan(Part(rows, labels), picked, first, last);
    }
  }

  // ------------------------------------------------------------------
  // Counting rows
  // ------------------------------------------------------------------

  /** Every row counts once, as every request and every call does. */
  ghost predicate CountOnce<K, L>(rows: map<K, Entry<L>>) {
    forall k | k in rows :: rows[k].amounts.n == 1
  }

  lemma {:induction false} CountIsSize<K, L>(rows: map<K, Entry<L>>)
    requires CountOnce(rows)
    ensures Total(rows).n == |rows.Keys|
    decreases |rows.Keys|
  {
    if rows.Keys == {} {
      TotalNone(rows);
    } else {
      var k :| k in rows;
      Shorter(rows, k);
      CountIsSize(rows - {k});
      hide Total;
      TotalTake(rows, k);
    }
  }

  lemma FewerRowsDiffer<K, L>(a: map<K, Entry<L>>, b: map<K, Entry<L>>, k: K)
    requires CountOnce(a) && CountOnce(b) && b.Keys <= a.Keys && k in a && k !in b
    ensures Total(a) != Total(b)
  {
    hide *;
    CountIsSize(a);
    CountIsSize(b);
    SmallerSet(a.Keys, b.Keys, k);
  }

  lemma SmallerSet<K>(a: set<K>, b: set<K>, k: K)
    requires b <= a && k in a && k !in b
    ensures |b| < |a|
  {
    assert a == b + (a - b) && k in a - b;
  }

  // ------------------------------------------------------------------
  // usage_rollup
  // ------------------------------------------------------------------

  /** What a dashboard panel can filter and group by. */
  datatype UsageColumns = UsageColumns(session: string, project: string, bucket: int, model: string, isMain: bool)

  function ColumnsOf(l: UsageLabel, w: int): UsageColumns
    requires 0 < w
  {
    UsageColumns(l.session, l.project, Bucket(l.hour, w), l.model, l.isMain)
  }

  /** WHERE u.hour >= from AND ... GROUP BY ... for one group. */
  function SelectUsage<K>(u: map<K, Entry<UsageLabel>>, from: int, w: int, wanted: UsageColumns -> bool)
    : map<K, Entry<UsageLabel>>
    requires 0 < w
  {
    map k | k in u && from <= u[k].group.hour && wanted(ColumnsOf(u[k].group, w)) :: u[k]
  }

  /** The live subquery: one row a canonical stamped record, its own instant as `hour`. */
  function LiveUsage(files: map<Key, FileRow>, records: map<RecordId, Stored>): map<RecordId, Entry<UsageLabel>> {
    map id | id in records && Counted(files, records, id) ::
      UsageEntry(files[id.file], records[id].record, records[id].record.ts.value)
  }

  function Sessions<K>(u: map<K, Entry<UsageLabel>>): set<string> {
    set k | k in u :: u[k].group.session
  }

  lemma CellGroup<K, L>(rows: map<K, Entry<L>>, l: L)
    requires l in Labels(rows)
    ensures l in GroupBy(rows) && GroupBy(rows)[l].group == l && GroupBy(rows)[l] == GroupOf(rows, l)
  {
  }

  function WantedUsage(rows: map<RecordId, Entry<UsageLabel>>, from: int, w: int,
                       wanted: UsageColumns -> bool): set<UsageLabel>
    requires 0 < w
  {
    set l | l in Labels(rows) && from <= l.hour && wanted(ColumnsOf(l, w))
  }

  lemma SelectedCells(rows: map<RecordId, Entry<UsageLabel>>, from: int, w: int, wanted: UsageColumns -> bool)
    requires 0 < w
    ensures SelectUsage(GroupBy(rows), from, w, wanted) == Cells(rows, WantedUsage(rows, from, w, wanted))
  {
    GroupByKeys(rows);
    hide GroupBy, GroupOf, Labels, Bucket;
    forall l | l in Labels(rows)
      ensures l in GroupBy(rows) && GroupBy(rows)[l].group == l && GroupBy(rows)[l] == GroupOf(rows, l)
    {
      CellGroup(rows, l);
    }
    assert SelectUsage(GroupBy(rows), from, w, wanted).Keys == WantedUsage(rows, from, w, wanted);
  }

  /** A record is under a wanted cell exactly when its own live row is wanted. */
  lemma WantedRow(files: map<Key, FileRow>, records: map<RecordId, Stored>, since: int, w: int,
                  wanted: UsageColumns -> bool, id: RecordId)
    requires 0 < w && w % 3600 == 0 && Counted(files, records, id)
    ensures var row, live := UsageRows(files, records)[id], LiveUsage(files, records)[id];
      && (Trunc(since) <= row.group.hour <==> Trunc(since) <= live.group.hour)
      && ColumnsOf(row.group, w) == ColumnsOf(live.group, w)
      && row.first == live.first && row.last == live.last && row.amounts == live.amounts
      && row.group.session == live.group.session
  {
    var t := records[id].record.ts.value;
    HourBound(since, t);
    BucketOfHour(t, w);
    hide Bucket, Trunc, ModelName;
  }

  lemma SelectedLive(files: map<Key, FileRow>, records: map<RecordId, Stored>, since: int, w: int,
                     wanted: UsageColumns -> bool)
    requires 0 < w && w % 3600 == 0
    ensures var rows := UsageRows(files, records);
            SameContent(Part(rows, WantedUsage(rows, Trunc(since), w, wanted)),
                        SelectUsage(LiveUsage(files, records), Trunc(since), w, wanted))
  {
    hide Bucket, Trunc, ModelName, UsageEntry, ColumnsOf;
    var rows := UsageRows(files, records);
    var part := Part(rows, WantedUsage(rows, Trunc(since), w, wanted));
    var live := SelectUsage(LiveUsage(files, records), Trunc(since), w, wanted);
    forall id | Counted(files, records, id)
      ensures id in part <==> id in live
      ensures id in part ==>
        && part[id].first == live[id].first && part[id].last == live[id].last
        && part[id].amounts == live[id].amounts
    {
      WantedRow(files, records, since, w, wanted, id);
      assert rows[id].group in Labels(rows);
    }
  }

  /** For every width of whole hours, the usage rollup answers any panel query at
      `since` exactly as the canonical records do at `since` rounded down to the hour:
      same sums and counts, same first and last times, same sessions. */
  lemma UsageRollupIsLive(files: map<Key, FileRow>, records: map<RecordId, Stored>, since: int, w: int,
                          wanted: UsageColumns -> bool)
    requires 0 < w && w % 3600 == 0
    ensures var rolled := SelectUsage(UsageTable(files, records), Trunc(since), w, wanted);
            var live := SelectUsage(LiveUsage(files, records), Trunc(since), w, wanted);
            SameAnswer(rolled, live) && Sessions(rolled) == Sessions(live)
  {
    var rows := UsageRows(files, records);
    var labels := WantedUsage(rows, Trunc(since), w, wanted);
    hide *;
    SelectedCells(rows, Trunc(since), w, wanted);
    SelectedLive(files, records, since, w, wanted);
    UsageTableIs(files, records);
    WantedExist(rows, Trunc(since), w, wanted);
    GroupsAnswerForRows(rows, labels, SelectUsage(LiveUsage(files, records), Trunc(since), w, wanted));
    SameSessions(files, records, since, w, wanted);
  }

  lemma UsageTableIs(files: map<Key, FileRow>, records: map<RecordId, Stored>)
    ensures UsageTable(files, records) == GroupBy(UsageRows(files, records))
  {
  }

  lemma WantedExist(rows: map<RecordId, Entry<UsageLabel>>, from: int, w: int, wanted: UsageColumns -> bool)
    requires 0 < w
    ensures WantedUsage(rows, from, w, wanted) <= Labels(rows)
  {
  }

  lemma SameSessions(files: map<Key, FileRow>, records: map<RecordId, Stored>, since: int, w: int,
                     wanted: UsageColumns -> bool)
    requires 0 < w && w % 3600 == 0
    ensures Sessions(SelectUsage(UsageTable(files, records), Trunc(since), w, wanted))
         == Sessions(SelectUsage(LiveUsage(files, records), Trunc(since), w, wanted))
  {
    hide Bucket, Trunc, ModelName, UsageEntry, ColumnsOf, GroupOf;
    var rows := UsageRows(files, records);
    var rolled := SelectUsage(UsageTable(files, records), Trunc(since), w, wanted);
    var live := SelectUsage(LiveUsage(files, records), Trunc(since), w, wanted);
    forall s | s in Sessions(rolled)
      ensures s in Sessions(live)
    {
      var l :| l in rolled && rolled[l].group.session == s;
      CellGroup(rows, l);
      var id :| id in rows && rows[id].group == l;
      WantedRow(files, records, since, w, wanted, id);
      assert live[id].group.session == s;
    }
    forall s | s in Sessions(live)
      ensures s in Sessions(rolled)
    {
      var id :| id in live && live[id].group.session == s;
      WantedRow(files, records, since, w, wanted, id);
      var l := rows[id].group;
      assert l in Labels(rows);
      CellGroup(rows, l);
      assert rolled[l].group.session == s;
    }
  }

  /** Whatever the filter, the rollup answers at `since` as the canonical records do. */
  ghost predicate UsageExactAt(files: map<Key, FileRow>, records: map<RecordId, Stored>, since: int, w: int)
    requires 0 < w
  {
    forall wanted: UsageColumns -> bool ::
      var rolled := SelectUsage(UsageTable(files, records), Trunc(since), w, wanted);
      var live := SelectUsage(LiveUsage(files, records), since, w, wanted);
      SameAnswer(rolled, live) && Sessions(rolled) == Sessions(live)
  }

  /** Is a record counted that is stamped after `since`'s hour begins and before `since`? */
  ghost predicate CountedJustBefore(files: map<Key, FileRow>, records: map<RecordId, Stored>, since: int) {
    exists id | id in records :: Counted(files, records, id) && Trunc(since) <= records[id].record.ts.value < since
  }

  /** For every width of whole hours the usage rollup answers at `since` itself exactly
      when no counted record is stamped in [Trunc(since), since). */
  lemma UsageRollupExactAt(files: map<Key, FileRow>, records: map<RecordId, Stored>, since: int, w: int)
    requires 0 < w && w % 3600 == 0
    ensures UsageExactAt(files, records, since, w) <==> !CountedJustBefore(files, records, since)
  {
    hide *;
    if CountedJustBefore(files, records, since) {
      JustBeforeDiffers(files, records, since, w);
    } else {
      NothingJustBefore(files, records, since, w);
    }
  }

  lemma NothingJustBefore(files: map<Key, FileRow>, records: map<RecordId, Stored>, since: int, w: int)
    requires 0 < w && w % 3600 == 0 && !CountedJustBefore(files, records, since)
    ensures UsageExactAt(files, records, since, w)
  {
    hide SelectUsage, SameAnswer, Sessions, UsageTable, LiveUsage, Trunc, CountedJustBefore;
    forall wanted: UsageColumns -> bool
      ensures var rolled := SelectUsage(UsageTable(files, records), Trunc(since), w, wanted);
              var live := SelectUsage(LiveUsage(files, records), since, w, wanted);
              SameAnswer(rolled, live) && Sessions(rolled) == Sessions(live)
    {
      UsageRollupIsLive(files, records, since, w, wanted);
      SameLiveRows(files, records, since, w, wanted);
    }
  }

  lemma TruncBefore(t: int)
    ensures Trunc(t) <= t
  {
  }

  lemma SameLiveRows(files: map<Key, FileRow>, records: map<RecordId, Stored>, since: int, w: int,
                     wanted: UsageColumns -> bool)
    requires 0 < w && !CountedJustBefore(files, records, since)
    ensures SelectUsage(LiveUsage(files, records), since, w, wanted)
         == SelectUsage(LiveUsage(files, records), Trunc(since), w, wanted)
  {
    TruncBefore(since);
    hide Bucket, Trunc, ModelName, ColumnsOf;
  }

  lemma ExactTotals(files: map<Key, FileRow>, records: map<RecordId, Stored>, since: int, w: int,
                    wanted: UsageColumns -> bool)
    requires 0 < w && w % 3600 == 0 && UsageExactAt(files, records, since, w)
    ensures Total(SelectUsage(LiveUsage(files, records), Trunc(since), w, wanted))
         == Total(SelectUsage(LiveUsage(files, records), since, w, wanted))
  {
    hide SelectUsage, UsageTable, LiveUsage, Trunc, Total, Sessions, IsSpan;
    UsageRollupIsLive(files, records, since, w, wanted);
    var rolled := SelectUsage(UsageTable(files, records), Trunc(since), w, wanted);
    assert SameAnswer(rolled, SelectUsage(LiveUsage(files, records), since, w, wanted));
  }

  lemma JustBeforeDiffers(files: map<Key, FileRow>, records: map<RecordId, Stored>, since: int, w: int)
    requires 0 < w && w % 3600 == 0 && CountedJustBefore(files, records, since)
    ensures !UsageExactAt(files, records, since, w)
  {
    hide *;
    var all := (c: UsageColumns) => true;
    LaterRowsAreFewer(files, records, since, w, all);
    if UsageExactAt(files, records, since, w) {
      ExactTotals(files, records, since, w, all);
    }
  }

  lemma LaterRowsAreFewer(files: map<Key, FileRow>, records: map<RecordId, Stored>, since: int, w: int,
                          wanted: UsageColumns -> bool)
    requires 0 < w && CountedJustBefore(files, records, since) && forall c :: wanted(c)
    ensures Total(SelectUsage(LiveUsage(files, records), Trunc(since), w, wanted))
         != Total(SelectUsage(LiveUsage(files, records), since, w, wanted))
  {
    TruncBefore(since);
    hide Bucket, Trunc, ModelName, ColumnsOf, Total;
    var more := SelectUsage(LiveUsage(files, records), Trunc(since), w, wanted);
    var fewer := SelectUsage(LiveUsage(files, records), since, w, wanted);
    var id :| id in records && Counted(files, records, id) && Trunc(since) <= records[id].record.ts.value < since;
    FewerRowsDiffer(more, fewer, id);
  }

  // ------------------------------------------------------------------
  // tool_rollup
  // ------------------------------------------------------------------

  datatype ToolColumns = ToolColumns(bucket: int, project: string, tool: string)

  function ToolColumnsOf(l: ToolLabel, w: int): ToolColumns
    requires 0 < w
  {
    ToolColumns(Bucket(l.hour, w), l.project, l.tool)
  }

  function SelectTools<K>(u: map<K, Entry<ToolLabel>>, from: int, w: int, wanted: ToolColumns -> bool)
    : map<K, Entry<ToolLabel>>
    requires 0 < w
  {
    map k | k in u && from <= u[k].group.hour && wanted(ToolColumnsOf(u[k].group, w)) :: u[k]
  }

  function LiveTools(files: map<Key, FileRow>, tools: map<ToolId, Transcript.ToolUse>): map<ToolId, Entry<ToolLabel>> {
    map id | id in tools && tools[id].ts.Some? && id.file in files ::
      ToolEntry(files[id.file], tools[id], tools[id].ts.value)
  }

  function WantedTools(rows: map<ToolId, Entry<ToolLabel>>, from: int, w: int,
                       wanted: ToolColumns -> bool): set<ToolLabel>
    requires 0 < w
  {
    set l | l in Labels(rows) && from <= l.hour && wanted(ToolColumnsOf(l, w))
  }

  lemma SelectedToolCells(rows: map<ToolId, Entry<ToolLabel>>, from: int, w: int, wanted: ToolColumns -> bool)
    requires 0 < w
    ensures SelectTools(GroupBy(rows), from, w, wanted) == Cells(rows, WantedTools(rows, from, w, wanted))
    ensures WantedTools(rows, from, w, wanted) <= Labels(rows)
  {
    GroupByKeys(rows);
    hide GroupBy, GroupOf, Labels, Bucket;
    forall l | l in Labels(rows)
      ensures l in GroupBy(rows) && GroupBy(rows)[l].group == l && GroupBy(rows)[l] == GroupOf(rows, l)
    {
      CellGroup(rows, l);
    }
    assert SelectTools(GroupBy(rows), from, w, wanted).Keys == WantedTools(rows, from, w, wanted);
  }

  lemma WantedTool(files: map<Key, FileRow>, tools: map<ToolId, Transcript.ToolUse>, since: int, w: int, id: ToolId)
    requires 0 < w && w % 3600 == 0 && id in tools && tools[id].ts.Some? && id.file in files
    ensures var row, live := ToolRows(files, tools)[id], LiveTools(files, tools)[id];
      && (since <= row.group.hour <==> CeilHour(since) <= live.group.hour)
      && ToolColumnsOf(row.group, w) == ToolColumnsOf(live.group, w)
      && row.first == live.first && row.last == live.last && row.amounts == live.amounts
  {
    var t := tools[id].ts.value;
    CeilBound(since, t);
    BucketOfHour(t, w);
    hide Bucket, Trunc, CeilHour;
  }

  lemma SelectedLiveTools(files: map<Key, FileRow>, tools: map<ToolId, Transcript.ToolUse>, since: int, w: int,
                          wanted: ToolColumns -> bool)
    requires 0 < w && w % 3600 == 0
    ensures var rows := ToolRows(files, tools);
            SameContent(Part(rows, WantedTools(rows, since, w, wanted)),
                        SelectTools(LiveTools(files, tools), CeilHour(since), w, wanted))
  {
    hide Bucket, Trunc, CeilHour, ToolEntry, ToolColumnsOf;
    var rows := ToolRows(files, tools);
    var part := Part(rows, WantedTools(rows, since, w, wanted));
    var live := SelectTools(LiveTools(files, tools), CeilHour(since), w, wanted);
    forall id | id in rows
      ensures id in part <==> id in live
      ensures id in part ==>
        && part[id].first == live[id].first && part[id].last == live[id].last
        && part[id].amounts == live[id].amounts
    {
      WantedTool(files, tools, since, w, id);
      assert rows[id].group in Labels(rows);
    }
  }

  /** For every width of whole hours, the tool rollup answers any query at `since` as
      the tool calls do at `since` rounded up to the hour. */
  lemma ToolRollupIsLive(files: map<Key, FileRow>, tools: map<ToolId, Transcript.ToolUse>, since: int, w: int,
                         wanted: ToolColumns -> bool)
    requires 0 < w && w % 3600 == 0
    ensures SameAnswer(SelectTools(ToolTable(files, tools), since, w, wanted),
                       SelectTools(LiveTools(files, tools), CeilHour(since), w, wanted))
  {
    var rows := ToolRows(files, tools);
    var labels := WantedTools(rows, since, w, wanted);
    ToolTableIs(files, tools);
    hide *;
    SelectedToolCells(rows, since, w, wanted);
    SelectedLiveTools(files, tools, since, w, wanted);
    GroupsAnswerForRows(rows, labels, SelectTools(LiveTools(files, tools), CeilHour(since), w, wanted));
  }

  lemma ToolTableIs(files: map<Key, FileRow>, tools: map<ToolId, Transcript.ToolUse>)
    ensures ToolTable(files, tools) == GroupBy(ToolRows(files, tools))
  {
  }

  /** Whatever the filter, the rollup answers at `since` as the tool calls do. */
  ghost predicate ToolsExactAt(files: map<Key, FileRow>, tools: map<ToolId, Transcript.ToolUse>, since: int, w: int)
    requires 0 < w
  {
    forall wanted: ToolColumns -> bool ::
      SameAnswer(SelectTools(ToolTable(files, tools), since, w, wanted),
                 SelectTools(LiveTools(files, tools), since, w, wanted))
  }

  /** Is a call stamped at or after `since` and before the next whole hour? */
  ghost predicate CalledJustAfter(files: map<Key, FileRow>, tools: map<ToolId, Transcript.ToolUse>, since: int) {
    exists id | id in tools :: tools[id].ts.Some? && id.file in files && since <= tools[id].ts.value < CeilHour(since)
  }

  /** For every width of whole hours the tool rollup answers at `since` itself exactly
      when no call is stamped in [since, CeilHour(since)). */
  lemma ToolRollupExactAt(files: map<Key, FileRow>, tools: map<ToolId, Transcript.ToolUse>, since: int, w: int)
    requires 0 < w && w % 3600 == 0
    ensures ToolsExactAt(files, tools, since, w) <==> !CalledJustAfter(files, tools, since)
  {
    hide *;
    if CalledJustAfter(files, tools, since) {
      JustAfterDiffers(files, tools, since, w);
    } else {
      NothingJustAfter(files, tools, since, w);
    }
  }

  lemma NothingJustAfter(files: map<Key, FileRow>, tools: map<ToolId, Transcript.ToolUse>, since: int, w: int)
    requires 0 < w && w % 3600 == 0 && !CalledJustAfter(files, tools, since)
    ensures ToolsExactAt(files, tools, since, w)
  {
    hide SelectTools, SameAnswer, ToolTable, LiveTools, CeilHour, CalledJustAfter;
    forall wanted: ToolColumns -> bool
      ensures SameAnswer(SelectTools(ToolTable(files, tools), since, w, wanted),
                         SelectTools(LiveTools(files, tools), since, w, wanted))
    {
      ToolRollupIsLive(files, tools, since, w, wanted);
      SameLiveCalls(files, tools, since, w, wanted);
    }
  }

  lemma CeilAfter(t: int)
    ensures t <= CeilHour(t)
  {
  }

  lemma SameLiveCalls(files: map<Key, FileRow>, tools: map<ToolId, Transcript.ToolUse>, since: int, w: int,
                      wanted: ToolColumns -> bool)
    requires 0 < w && !CalledJustAfter(files, tools, since)
    ensures SelectTools(LiveTools(files, tools), since, w, wanted)
         == SelectTools(LiveTools(files, tools), CeilHour(since), w, wanted)
  {
    CeilAfter(since);
    hide Bucket, CeilHour, ToolColumnsOf;
  }

  lemma ExactCallTotals(files: map<Key, FileRow>, tools: map<ToolId, Transcript.ToolUse>, since: int, w: int,
                        wanted: ToolColumns -> bool)
    requires 0 < w && w % 3600 == 0 && ToolsExactAt(files, tools, since, w)
    ensures Total(SelectTools(LiveTools(files, tools), since, w, wanted))
         == Total(SelectTools(LiveTools(files, tools), CeilHour(since), w, wanted))
  {
    hide SelectTools, ToolTable, LiveTools, CeilHour, Total, IsSpan;
    ToolRollupIsLive(files, tools, since, w, wanted);
    assert SameAnswer(SelectTools(ToolTable(files, tools), since, w, wanted),
                      SelectTools(LiveTools(files, tools), since, w, wanted));
  }

  lemma JustAfterDiffers(files: map<Key, FileRow>, tools: map<ToolId, Transcript.ToolUse>, since: int, w: int)
    requires 0 < w && w % 3600 == 0 && CalledJustAfter(files, tools, since)
    ensures !ToolsExactAt(files, tools, since, w)
  {
    hide *;
    var all := (c: ToolColumns) => true;
    LaterCallsAreFewer(files, tools, since, w, all);
    if ToolsExactAt(files, tools, since, w) {
      ExactCallTotals(files, tools, since, w, all);
    }
  }

  lemma LaterCallsAreFewer(files: map<Key, FileRow>, tools: map<ToolId, Transcript.ToolUse>, since: int, w: int,
                           wanted: ToolColumns -> bool)
    requires 0 < w && CalledJustAfter(files, tools, since) && forall c :: wanted(c)
    ensures Total(SelectTools(LiveTools(files, tools), since, w, wanted))
         != Total(SelectTools(LiveTools(files, tools), CeilHour(since), w, wanted))
  {
    CeilAfter(since);
    hide Bucket, CeilHour, ToolColumnsOf, Total;
    var more := SelectTools(LiveTools(files, tools), since, w, wanted);
    var fewer := SelectTools(LiveTools(files, tools), CeilHour(since), w, wanted);
    var id :| id in tools && tools[id].ts.Some? && id.file in files && since <= tools[id].ts.value < CeilHour(since);
    FewerRowsDiffer(more, fewer, id);
  }

  // ------------------------------------------------------------------
  // latency_rollup
  // ------------------------------------------------------------------

  /** The live query's population of a group: only records stamped at or after `since`. */
  function LivePopulation(files: map<Key, FileRow>, records: map<RecordId, Stored>, g: LatencyLabel,
                          since: int): map<RecordId, Transcript.Record>
    requires 0 < g.bucketS
  {
    map id | id in records && InPopulation(files, records, g, id)
        && since <= records[id].record.ts.value :: records[id].record
  }

  /** A stored group's bands and outliers equal the live ones at `since` exactly when
      no member was stamped earlier; so always when its bucket starts at or after it. */
  lemma LatencyAgreesExactly(files: map<Key, FileRow>, records: map<RecordId, Stored>, g: LatencyLabel, since: int)
    requires 0 < g.bucketS
    ensures Population(files, records, g) == LivePopulation(files, records, g, since)
       <==> forall id | id in Population(files, records, g) :: since <= records[id].record.ts.value
    ensures since <= g.bucket - g.bucketS / 2 * SECOND ==>
      Population(files, records, g) == LivePopulation(files, records, g, since)
  {
    var all, live := Population(files, records, g), LivePopulation(files, records, g, since);
    if all == live {
      forall id | id in all
        ensures since <= records[id].record.ts.value
      {
        assert id in live;
      }
    }
    if forall id | id in all :: since <= records[id].record.ts.value {
      assert all.Keys == live.Keys;
    }
    forall id | id in all
      ensures g.bucket - g.bucketS / 2 * SECOND <= records[id].record.ts.value
    {
      StartsBefore(records[id].record.ts.value, g.bucketS);
    }
  }

  lemma StartsBefore(t: int, w: int)
    requires 0 < w
    ensures BucketStart(t, w) <= t && Bucket(t, w) - w / 2 * SECOND == BucketStart(t, w)
  {
    var d := w * SECOND;
    assert t == t / d * d + t % d;
  }

  /** What the rollup query returns for a group: it filters stored rows by midpoint. */
  function ServedGroup(table: map<LatencyLabel, map<RecordId, Transcript.Record>>, g: LatencyLabel, since: int)
    : Option<map<RecordId, Transcript.Record>>
  {
    if g in table && since <= g.bucket then Some(table[g]) else None
  }

  /** What the live query returns for it: it filters records by their own stamp. */
  function LiveGroup(files: map<Key, FileRow>, records: map<RecordId, Stored>, g: LatencyLabel, since: int)
    : Option<map<RecordId, Transcript.Record>>
    requires 0 < g.bucketS
  {
    var live := LivePopulation(files, records, g, since);
    if live.Keys == {} then None else Some(live)
  }

  function StartOf(g: LatencyLabel): int {
    g.bucket - g.bucketS / 2 * SECOND
  }

  /** Does the group's bucket begin before `since` and end after it? */
  predicate Straddles(g: LatencyLabel, since: int) {
    StartOf(g) < since < StartOf(g) + g.bucketS * SECOND
  }

  lemma MembersWithin(files: map<Key, FileRow>, records: map<RecordId, Stored>, g: LatencyLabel, id: RecordId)
    requires 0 < g.bucketS && id in Population(files, records, g)
    ensures StartOf(g) <= records[id].record.ts.value < StartOf(g) + g.bucketS * SECOND
  {
    StartsBefore(records[id].record.ts.value, g.bucketS);
  }

  /** The stored answer for a group: its whole population when the bucket's midpoint is at
      or after `since`, nothing otherwise.  It equals the live answer exactly when no member
      precedes `since`, in the first case, or none follows it, in the second; so only the
      one bucket straddling `since` can differ. */
  lemma LatencyRollupServes(files: map<Key, FileRow>, records: map<RecordId, Stored>, g: LatencyLabel, since: int)
    requires g.bucketS in WIDTHS
    ensures var all, served := Population(files, records, g), ServedGroup(LatencyTable(files, records), g, since);
      && served == (if since <= g.bucket && all.Keys != {} then Some(all) else None)
      && (served == LiveGroup(files, records, g, since) <==>
            forall id | id in all :: since <= g.bucket <==> since <= records[id].record.ts.value)
      && (!Straddles(g, since) ==> served == LiveGroup(files, records, g, since))
  {
    StoredExactlyIfPopulated(files, records, g);
    LatencyAgreesExactly(files, records, g, since);
    LiveAnswers(files, records, g, since);
    hide LatencyTable, LivePopulation, Population;
    var all := Population(files, records, g);
    forall id | id in all
      ensures !Straddles(g, since) ==> (since <= g.bucket <==> since <= records[id].record.ts.value)
    {
      MembersWithin(files, records, g, id);
    }
  }

  lemma LiveAnswers(files: map<Key, FileRow>, records: map<RecordId, Stored>, g: LatencyLabel, since: int)
    requires 0 < g.bucketS
    ensures forall id | id in Population(files, records, g) :: id in records && records[id].record.ts.Some?
    ensures LivePopulation(files, records, g, since).Keys == {}
       <==> forall id | id in Population(files, records, g) :: records[id].record.ts.value < since
    ensures LivePopulation(files, records, g, since).Keys <= Population(files, records, g).Keys
  {
    hide Bucket, ModelName;
    var all, live := Population(files, records, g), LivePopulation(files, records, g, since);
    if live.Keys == {} {
      forall id | id in all
        ensures records[id].record.ts.value < since
      {
        assert id !in live;
      }
    }
  }

  lemma StoredExactlyIfPopulated(files: map<Key, FileRow>, records: map<RecordId, Stored>, g: LatencyLabel)
    requires g.bucketS in WIDTHS
    ensures g in LatencyTable(files, records) <==> Population(files, records, g).Keys != {}
    ensures g in LatencyTable(files, records) ==> LatencyTable(files, records)[g] == Population(files, records, g)
  {
    hide Bucket, ModelName;
    if Population(files, records, g).Keys != {} {
      var id :| id in Population(files, records, g);
      assert Timed(records[id].record) && BucketOf(records[id].record, g.bucketS) == g.bucket;
      assert g in LatencyGroups(files, records);
    }
    if g in LatencyGroups(files, records) {
      var id :| id in records && id.file in files && Timed(records[id].record)
        && BucketOf(records[id].record, g.bucketS) == g.bucket && ModelName(records[id].record.model) == g.model
        && (g.project == files[id.file].project || g.project == "");
      assert id in Population(files, records, g);
    }
  }
}
