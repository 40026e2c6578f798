/** The stored tables (backend/schema.sql), each a map from its primary key, and the
    relations the rollups are grouped from (backend/ingest.py:529-547, 755-776). */
module Tables {
  import opened Wrappers
  import opened Grouping
  import Transcript

  type Key = string

  datatype RecordId = RecordId(file: Key, line: nat)

  datatype ToolId = ToolId(file: Key, line: nat, idx: nat)

  datatype Stored = Stored(record: Transcript.Record, canonical: bool)

  datatype FileRow = FileRow(project: string, session: string, isMain: bool, etag: string, version: string,
                             modified: int, ctxTurns: seq<Transcript.CtxRow>)

  datatype Project = Project(name: string, firstSeen: int, lastSeen: int)

  /** The tables an ingest fills from transcripts; the rollups derive from them. */
  datatype Base = Base(files: map<Key, FileRow>, records: map<RecordId, Stored>,
                       tools: map<ToolId, Transcript.ToolUse>, projects: map<string, Project>)

  /** Microseconds. */
  const SECOND: int := 1_000_000
  const HOUR: int := 3600 * SECOND

  /** date_trunc('hour', t). */
  function Trunc(t: int): int {
    t - t % HOUR
  }

  /** Start of the epoch-aligned bucket of `w` seconds holding t. */
  function BucketStart(t: int, w: int): int
    requires 0 < w
  {
    t / (w * SECOND) * (w * SECOND)
  }

  /** The instant SQL reports for that bucket: its midpoint. */
  function Bucket(t: int, w: int): int
    requires 0 < w
  {
    BucketStart(t, w) + w / 2 * SECOND
  }

  function ModelName(model: string): string {
    if model == "" then "unknown" else model
  }

  datatype UsageLabel = UsageLabel(session: string, project: string, hour: int, model: string, isMain: bool)

  datatype ToolLabel = ToolLabel(hour: int, project: string, tool: string)

  /** `bucketS` wide buckets; project "" is the all-projects scope. */
  datatype LatencyLabel = LatencyLabel(bucketS: int, bucket: int, project: string, model: string)

  // ------------------------------------------------------------------
  // The relation under usage_rollup: canonical, stamped records joined to files
  // ------------------------------------------------------------------

  /** Summed columns: requests, fresh, output, cache read, cost. */
  function UsageEntry(file: FileRow, r: Transcript.Record, hour: int): Entry<UsageLabel>
    requires r.ts.Some?
  {
    Entry(UsageLabel(file.session, file.project, hour, ModelName(r.model), file.isMain), r.ts.value, r.ts.value,
          Amounts(1, r.tally.uncached, r.tally.output, r.tally.read, r.cost))
  }

  predicate Counted(files: map<Key, FileRow>, records: map<RecordId, Stored>, id: RecordId) {
    id in records && records[id].canonical && records[id].record.ts.Some? && id.file in files
  }

  function UsageRows(files: map<Key, FileRow>, records: map<RecordId, Stored>): map<RecordId, Entry<UsageLabel>> {
    map id | id in records && Counted(files, records, id) ::
      UsageEntry(files[id.file], records[id].record, Trunc(records[id].record.ts.value))
  }

  ghost function UsageTable(files: map<Key, FileRow>, records: map<RecordId, Stored>)
    : map<UsageLabel, Entry<UsageLabel>>
  {
    GroupBy(UsageRows(files, records))
  }

  /** The table's primary key omits project_id: (session_id, hour, model, is_main). */
  predicate SameUsageKey(a: UsageLabel, b: UsageLabel) {
    a.session == b.session && a.hour == b.hour && a.model == b.model && a.isMain == b.isMain
  }

  predicate UsageKeyHolds(labels: set<UsageLabel>) {
    forall a, b | a in labels && b in labels && SameUsageKey(a, b) :: a == b
  }

  // ------------------------------------------------------------------
  // The relation under tool_rollup: stamped tool calls joined to files
  // ------------------------------------------------------------------

  /** Summed columns: calls, settled calls, failed calls, lines added, lines deleted. */
  function ToolEntry(file: FileRow, t: Transcript.ToolUse, hour: int): Entry<ToolLabel>
    requires t.ts.Some?
  {
    Entry(ToolLabel(hour, file.project, t.call.name), t.ts.value, t.ts.value,
          Amounts(1, if t.isError.Some? then 1 else 0, if t.isError == Some(true) then 1 else 0,
                  t.call.churn.added, t.call.churn.deleted))
  }

  function ToolRows(files: map<Key, FileRow>, tools: map<ToolId, Transcript.ToolUse>): map<ToolId, Entry<ToolLabel>> {
    map id | id in tools && tools[id].ts.Some? && id.file in files ::
      ToolEntry(files[id.file], tools[id], Trunc(tools[id].ts.value))
  }

  ghost function ToolTable(files: map<Key, FileRow>, tools: map<ToolId, Transcript.ToolUse>)
    : map<ToolLabel, Entry<ToolLabel>>
  {
    GroupBy(ToolRows(files, tools))
  }

  // ------------------------------------------------------------------
  // latency_rollup: the population of each (width, bucket, scope, model) group
  // ------------------------------------------------------------------

  const WIDTHS: set<int> := {3600, 21600, 43200, 86400}

  /** Is this record in the group's population?  Percentiles, counts and outliers
      are functions of the population. */
  predicate InPopulation(files: map<Key, FileRow>, records: map<RecordId, Stored>, g: LatencyLabel, id: RecordId)
    requires 0 < g.bucketS
  {
    && id in records && id.file in files
    && records[id].record.latency.Some? && records[id].record.ts.Some?
    && Bucket(records[id].record.ts.value, g.bucketS) == g.bucket
    && ModelName(records[id].record.model) == g.model
    && (g.project == "" || files[id.file].project == g.project)
  }

  function Population(files: map<Key, FileRow>, records: map<RecordId, Stored>, g: LatencyLabel)
    : map<RecordId, Transcript.Record>
    requires 0 < g.bucketS
  {
    map id | id in records && InPopulation(files, records, g, id) :: records[id].record
  }

  function LatencyGroups(files: map<Key, FileRow>, records: map<RecordId, Stored>): set<LatencyLabel> {
    (set w, id | w in WIDTHS && id in records && id.file in files && Timed(records[id].record) ::
       LatencyLabel(w, BucketOf(records[id].record, w), files[id.file].project, ModelName(records[id].record.model)))
    + (set w, id | w in WIDTHS && id in records && id.file in files && Timed(records[id].record) ::
       LatencyLabel(w, BucketOf(records[id].record, w), "", ModelName(records[id].record.model)))
  }

  predicate Timed(r: Transcript.Record) {
    r.latency.Some? && r.ts.Some?
  }

  function BucketOf(r: Transcript.Record, w: int): int {
    if r.ts.Some? && 0 < w then Bucket(r.ts.value, w) else 0
  }

  function LatencyTable(files: map<Key, FileRow>, records: map<RecordId, Stored>)
    : map<LatencyLabel, map<RecordId, Transcript.Record>>
  {
    map g | g in LatencyGroups(files, records) && 0 < g.bucketS :: Population(files, records, g)
  }

  /** A project whose id is empty would collide with the all-projects scope. */
  predicate ScopesCollide(files: map<Key, FileRow>, records: map<RecordId, Stored>) {
    exists id | id in records :: id.file in files && Timed(records[id].record) && files[id.file].project == ""
  }
}
