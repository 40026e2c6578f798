/** The read path end to end: which source a range uses (backend/api_dashboard.py
    `_roll_source`, backend/api.py `_tool_source`, `_latency_rollup_rows`) and what its
    answer is after any history of ingest runs that ends with a finished one. */
module Dashboard {
  import opened Wrappers
  import opened Tables
  import opened Rollups
  import BinPicker
  import Grouping
  import Ingest
  import IngestHistory

  /** The widths the server's picker gives that are an hour or more are whole hours,
      and they are the widths latency_rollup is built for. */
  lemma WideBucketsAreWholeHours(b: int, span: int)
    requires BinPicker.Coarsest(b, span, 1)
    ensures 0 < b
    ensures 3600 <= b <==> b in WIDTHS
    ensures 3600 <= b ==> b % 3600 == 0
  {
    var k :| 0 <= k < |BinPicker.CANDIDATES| && b == BinPicker.CANDIDATES[k] * 1;
    assert BinPicker.CANDIDATES[k] in {60, 300, 900, 1800, 3600, 21600, 43200, 86400};
  }

  /** The instant a panel effectively starts at. */
  function UsageSince(b: int, since: int): int {
    if 3600 <= b then Trunc(since) else since
  }

  function ToolSince(b: int, since: int): int {
    if 3600 <= b then CeilHour(since) else since
  }

  ghost function PanelSum(s: Ingest.Store, b: int, since: int, wanted: UsageColumns -> bool): Grouping.Amounts
    requires 0 < b
  {
    if 3600 <= b then Grouping.Total(SelectUsage(s.usage, Trunc(since), b, wanted))
    else Grouping.Total(SelectUsage(LiveUsage(s.base.files, s.base.records), since, b, wanted))
  }

  function PanelSessions(s: Ingest.Store, b: int, since: int, wanted: UsageColumns -> bool): set<string>
    requires 0 < b
  {
    if 3600 <= b then Sessions(SelectUsage(s.usage, Trunc(since), b, wanted))
    else Sessions(SelectUsage(LiveUsage(s.base.files, s.base.records), since, b, wanted))
  }

  /** Is this the span of first and last times the panel shows? */
  ghost predicate PanelSpan(s: Ingest.Store, b: int, since: int, wanted: UsageColumns -> bool, first: int, last: int)
    requires 0 < b
  {
    if 3600 <= b then Grouping.IsSpan(SelectUsage(s.usage, Trunc(since), b, wanted), first, last)
    else Grouping.IsSpan(SelectUsage(LiveUsage(s.base.files, s.base.records), since, b, wanted), first, last)
  }

  ghost function ToolSum(s: Ingest.Store, b: int, since: int, wanted: ToolColumns -> bool): Grouping.Amounts
    requires 0 < b
  {
    if 3600 <= b then Grouping.Total(SelectTools(s.toolRollup, since, b, wanted))
    else Grouping.Total(SelectTools(LiveTools(s.base.files, s.base.tools), since, b, wanted))
  }

  /** After any history ending with a finished run, every usage panel at every width
      the picker gives shows the canonical records from its effective start. */
  lemma PanelsShowTheRecords(history: seq<IngestHistory.Event>, b: int, span: int, since: int,
                             wanted: UsageColumns -> bool)
    requires IngestHistory.Feasible(history) && history != [] && history[|history| - 1].stage.Finished?
    requires BinPicker.Coarsest(b, span, 1)
    ensures 0 < b
    ensures var s := IngestHistory.StateAfter(history);
            var live := SelectUsage(LiveUsage(s.base.files, s.base.records), UsageSince(b, since), b, wanted);
            && PanelSum(s, b, since, wanted) == Grouping.Total(live)
            && PanelSessions(s, b, since, wanted) == Sessions(live)
            && (forall first, last ::
                  PanelSpan(s, b, since, wanted, first, last) <==> Grouping.IsSpan(live, first, last))
  {
    hide Grouping.IsSpan, BinPicker.Coarsest, IngestHistory.Feasible, IngestHistory.StateAfter, SelectUsage,
        LiveUsage, Sessions,
         UsageTable, ToolTable, LatencyTable, Grouping.Total;
    WideBucketsAreWholeHours(b, span);
    IngestHistory.FinishedRunLeavesConsistency(history);
    if 3600 <= b {
      var s := IngestHistory.StateAfter(history);
      UsageRollupIsLive(s.base.files, s.base.records, since, b, wanted);
    }
  }

  /** The same for tool calls, settled and failed counts, and edit churn. */
  lemma ToolPanelsShowTheCalls(history: seq<IngestHistory.Event>, b: int, span: int, since: int,
                               wanted: ToolColumns -> bool)
    requires IngestHistory.Feasible(history) && history != [] && history[|history| - 1].stage.Finished?
    requires BinPicker.Coarsest(b, span, 1)
    ensures 0 < b
    ensures var s := IngestHistory.StateAfter(history);
            var live := SelectTools(LiveTools(s.base.files, s.base.tools), ToolSince(b, since), b, wanted);
            ToolSum(s, b, since, wanted) == Grouping.Total(live)
  {
    hide BinPicker.Coarsest, IngestHistory.Feasible, IngestHistory.StateAfter, SelectTools, LiveTools,
         UsageTable, ToolTable, LatencyTable, Grouping.Total;
    WideBucketsAreWholeHours(b, span);
    IngestHistory.FinishedRunLeavesConsistency(history);
    if 3600 <= b {
      var s := IngestHistory.StateAfter(history);
      ToolRollupIsLive(s.base.files, s.base.tools, since, b, wanted);
    }
  }

  /** And for reply-latency groups: the panel shows a group's whole population when its
      bucket's midpoint is at or after `since`, and nothing otherwise.  That is what the
      live query would answer unless the bucket straddles `since`, and then exactly when
      all its members lie on the midpoint's side. */
  lemma LatencyPanelsShowTheReplies(history: seq<IngestHistory.Event>, span: int, since: int, g: LatencyLabel)
    requires IngestHistory.Feasible(history) && history != [] && history[|history| - 1].stage.Finished?
    requires BinPicker.Coarsest(g.bucketS, span, 1) && 3600 <= g.bucketS
    ensures var s := IngestHistory.StateAfter(history);
      var served, live := ServedGroup(s.latency, g, since), LiveGroup(s.base.files, s.base.records, g, since);
      var all := Population(s.base.files, s.base.records, g);
      && served == (if since <= g.bucket && all.Keys != {} then Some(all) else None)
      && (served == live <==>
            forall id | id in all :: since <= g.bucket <==> since <= s.base.records[id].record.ts.value)
      && (!Straddles(g, since) ==> served == live)
  {
    hide BinPicker.Coarsest, IngestHistory.Feasible, IngestHistory.StateAfter, LiveGroup, ServedGroup, Straddles,
         UsageTable, ToolTable, LatencyTable;
    WideBucketsAreWholeHours(g.bucketS, span);
    IngestHistory.FinishedRunLeavesConsistency(history);
    var s := IngestHistory.StateAfter(history);
    LatencyRollupServes(s.base.files, s.base.records, g, since);
  }
}
