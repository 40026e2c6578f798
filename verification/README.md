# kimimeter verification

A Dafny model of the parts of kimimeter where state, concurrency, merging and
rounding meet, with proofs of what they keep.

- **Ingest** (`Plan`, `Ingest`, `Database`, `IngestHistory`, `IngestConvergence`,
  `ChangeFlag`, `ProjectTimes`, `RebuildConflicts`, `LatencyRollup`, `Canonical`, `Tables`): a
  run plans work from etag and parser version, fetches in chunks on a pool, persists one file
  per transaction, deletes orphans, then recomputes the canonical flags and the three rollups.
  `Database` is the mutable database, one method per transaction;
  `Ingest` holds the functions its methods are proved against; `IngestHistory` and
  `IngestConvergence` reason over every sequence of runs, including runs that die at a
  transaction boundary.
- **Reads** (`Grouping`, `Rollups`, `Dashboard`, `PanelSums`, `Sessions`, `ModelSummary`): the
  pre-aggregated answers against the live ones and against the stored rows, keyset
  pagination, and rounded totals.
- **Caches** (`TtlCache`, `ResponseCache`, `ThreadTraces`, `IdleLru`): the response cache as
  threads interleaved at each lock acquire and release and each computation's first query,
  what each thread does in every interleaving, and the transcript LRU.
- **Transcripts** (`Transcript`, `TranscriptTurns`, `TranscriptReplies`, `TranscriptRows`,
  `Heredoc`, `Pricing`, `ModelLabels`): the streaming parser of both wire formats, heredoc churn,
  and rates.
- **Client** (`TimeSeries`, `BinPicker`, `TurnSegments`): display bins, hover, and the
  two turn segmenters.

Tables are maps from their primary keys; an SQL statement is its relational meaning.
Time is in microseconds since the epoch (milliseconds or reals in the client), money
in units of 1e-8 USD. `uncached` stands for the source's `fresh` tokens, a reserved
word in Dafny.

Findings, each stated as a lemma:

- The usage rebuild raises exactly when two counted records share (session, hour,
  model, is_main) but not the project (`IngestHistory.RollFailsExactlyOnClash`), and the
  latency rebuild exactly when a timed record is stored under an empty project id; listings
  that cause each are `RebuildConflicts.SharedSessionInstance` and
  `RebuildConflicts.EmptyProjectInstance`. A listing is safe from both, whatever is stored and
  whatever its objects hold, if and only if no two keys agree on session and kind but not on
  the project and no project part is empty (`RebuildConflicts.AlwaysFinishesExactly`).
- `data_changed` is not "the tables changed since the last finished run", in two ways. The
  flag is set if and only if the run itself changed the files table (`ChangeFlag.FlagSetExactly`),
  so it passes over the files dead runs left (`IngestHistory.DeadRunHidesItsFiles`,
  `ChangeFlag.ChangePassedOverExactly`). And the projects are upserted in every run, so a
  display name can change in a run that reports nothing: a renamed marker, or one marker GET
  that fails, which overwrites the name with the raw id (`ChangeFlag.SettledRenameIsSilent`,
  `ChangeFlag.LostMarkerInstance`). The cached `/api/projects` and the unresolved-projects
  filter read those names, and nothing is invalidated. Everything a
  response is computed from is as the last finished run left it if and only if the quiet run
  found the files, and its markers named the projects, that way
  (`ChangeFlag.QuietReportIsRightExactly`). Nothing here claims
  that every change is followed by a cache invalidation.
- `put` stamps the generation at store time, so a hit flagged fresh can hold data
  older than the last invalidation (`ResponseCache.FreshFlagCanLie`). It does exactly when
  an invalidation fell between the computation's first query and its put and followed a
  database change made since that query (`ResponseCache.FreshHitIsCurrentExactly`).
- Pagination by first-event time loses sessions that tie with a page's last row, and
  undated sessions beyond page one (`Sessions.MissedExactly`).
- `strip()` makes `<<TAG` end at an indented tag just like `<<-TAG` (`Heredoc.DashIsIrrelevant`).
- The usage rollup answers for `since` rounded down to the hour, the tool rollup for
  `since` rounded up (`Rollups.UsageRollupIsLive`, `Rollups.ToolRollupIsLive`). They answer for
  `since` itself if and only if nothing is stamped in between (`Rollups.UsageRollupExactAt`,
  `Rollups.ToolRollupExactAt`). The latency
  rollup filters by bucket midpoint, so the one bucket straddling `since` is served whole or
  not at all (`Rollups.LatencyRollupServes`).

## Model

| member | source | states |
|---|---|---|
| IngestHistory.FinishedRunLeavesConsistency | backend/ingest.py:391-438 | After any history of runs, dead ones included, a run that finishes leaves canonical flags, usage, tool and latency rollups equal to the functions of the rows now stored that define them |
| IngestConvergence.CaughtUpDatabasesAgree | backend/ingest.py:391-438 | Two databases that caught up with the same bucket under one parser version agree on every record, flag, call and rollup, whatever runs, failures and deaths each went through |
| IngestConvergence.EveryStateIsFaithful | backend/ingest.py:873-964 | In every reachable state each stored file holds exactly what its parser version makes of the content its etag names: no row outlives a reparse and none is missing |
| IngestConvergence.CleanRunCatchesUp | backend/ingest.py:335-357 | A run that fetches and parses every due file ends with exactly the listed files, each current |
| IngestConvergence.RowsAreTheParse | backend/ingest.py:945-963 | The inserted record rows are the parse's records, one each, with the default flag |
| IngestConvergence.CallsAreTheParse | backend/ingest.py:945-963 | The inserted tool-use rows are the parse's calls, one each |
| IngestHistory.HistoryIsForgotten | backend/ingest.py:391-421 | Two histories that end finished with the same raw rows end with the same flags and rollups |
| IngestHistory.EveryStateIsValid | backend/schema.sql:10-43 | In every reachable state every foreign key holds, a file's project, session and kind are read off its key, and a latency comes with a stamp |
| IngestHistory.KindIsStored | backend/ingest.py:207-211 | In every reachable state a file is stored as not main if and only if "/subagents/" stands somewhere in its key |
| IngestHistory.KindsNeverShareGroup | backend/ingest.py:755-776 | Records of a subagent's transcript and of a session's own never fall in one usage group, whatever their session, hour and model |
| IngestHistory.PersistedRow | backend/ingest.py:895-944 | A persisted file's row holds the listed etag and modification time, the parser version, the parse's context rows, and its key's project, session and kind |
| Plan.IsMainExactly | backend/ingest.py:207-211 | A key is main if and only if "/subagents/" stands nowhere in it |
| Plan.SubagentKey | backend/ingest.py:207-211 | No key with a subagents folder in it is main, whatever stands before and after |
| Plan.PartsExactly | backend/ingest.py:204-206 | The parts of a key are the only slash-free parts that joined by slashes give it |
| IngestHistory.NonFatalRunFinishes | backend/ingest.py:391-421 | When no session has transcripts of one kind in two projects and no project id is empty, a run no fetch is fatal to always reaches the end |
| IngestHistory.RollFailsExactlyOnClash | backend/schema.sql:81-95 | The usage rebuild violates its primary key if and only if two counted records agree on session, hour, model and is_main but not on the project |
| IngestHistory.OneProjectNeverClashes | backend/ingest.py:755-776 | A session's transcripts of one kind in one project, and no empty project id, rule out both rebuild conflicts |
| IngestHistory.StoredWereListed | backend/ingest.py:301-313 | After the main pass every stored file was listed |
| IngestHistory.ListedKeyIsCurrentOrUntouched | backend/ingest.py:227-248 | A listed key ends with the listed etag and current parser version, or it failed or was unsupported and its row and records are as they were |
| IngestHistory.RerunPlansLeftovers | backend/ingest.py:197-224 | A rerun over the same bucket plans exactly the due keys that were not persisted |
| IngestHistory.SettledBucketStaysSettled | backend/ingest.py:316-357 | With nothing left over a run inserts, reparses and deletes nothing and leaves files, records and tool calls as they are |
| IngestHistory.DeadRunHidesItsFiles | backend/ingest.py:397-434 | A run that dies after persisting its files leaves the next run with no data change to report, though the files changed and the rollups did not |
| ChangeFlag.FlagSetExactly | backend/ingest.py:316-333 | `data_changed` is set if and only if the run changed the files table |
| ChangeFlag.CountsAreTheDifference | backend/ingest.py:227-357 | A run's counts are the numbers of files it adds, of files whose row it replaces and of files it removes, and of due files skipped or failed |
| ChangeFlag.QuietRunChangesNothing | backend/ingest.py:411-434 | From a consistent state a finished run without a data change leaves files, records, flags, calls and all three rollups as they were |
| ChangeFlag.MainProjects | backend/ingest.py:278-298 | The main pass leaves the projects table with every seen project merged in, whether or not a file needed work |
| ChangeFlag.MainNames | backend/ingest.py:165-187 | After the main pass every listed project has the name its marker yielded, or its id, and every other project its old name |
| ChangeFlag.QuietRunChangesNamesExactly | backend/ingest.py:278-298 | From a consistent state a finished run that persists and deletes nothing leaves everything a response is computed from, project names included, if and only if each listed project was already stored under the name its marker yields, or its id |
| ChangeFlag.UnchangedFilesUnchangedData | backend/ingest.py:391-421 | From a consistent state a run that leaves the files table alone, however far it got, leaves every table but the projects alone |
| ChangeFlag.ChangePassedOverExactly | backend/ingest.py:397-434 | With only dead runs since a finished one, a finished run reports no change although the files changed since if and only if it persists and deletes nothing and found them different from what that one left |
| ChangeFlag.QuietReportIsSafe | backend/ingest.py:423-434 | If no run that died since the last finished one changed the files or a project name, and every listed project has the name its marker yields or its id, a report of no data change means nothing a response is computed from changed since |
| ChangeFlag.FilesDecideData | backend/ingest.py:391-421 | Two histories that end finished over the same parses agree on every table but the projects if and only if they agree on the files table |
| ChangeFlag.QuietReportIsRightExactly | backend/ingest.py:423-434 | After any runs since a finished one, a finished run that persists and deletes nothing reports no change; every table but the projects is then as the earlier one left it if and only if it found the files so, and the project names too if and only if its markers also name them so |
| ChangeFlag.SettledRenameIsSilent | backend/ingest.py:278-298 | In a settled bucket a listed project stored under another name is renamed by a run that reports no data change |
| ChangeFlag.LostMarkerInstance | backend/ingest.py:165-187 | A two-run history: the first names a project by its marker, the second, without the marker, overwrites the name with the id and reports no data change |
| RebuildConflicts.RebuildStopsExactly | backend/schema.sql:94-161 | The rebuilds stop at the usage table exactly on a clash, at the latency table exactly on a timed record under an empty project id without a clash, and otherwise finish |
| RebuildConflicts.SharedSessionStopsRollup | backend/ingest.py:755-776 | Two listed files of one session and kind under different projects, each persisted with a uuid-less record of the same hour and model, stop the run at the usage rebuild |
| RebuildConflicts.EmptyProjectStopsLatency | backend/ingest.py:591-646 | A listed file with an empty project id, persisted with a timed record, stops the run at the latency rebuild unless the usage rebuild did |
| RebuildConflicts.AlwaysFinishesExactly | backend/ingest.py:411-421 | For a listing of distinct transcript keys, every run no fetch is fatal to finishes, whatever is stored and whatever the objects hold, if and only if no two keys agree on session and kind but not on the project and no project part is empty |
| RebuildConflicts.SharedSessionInstance | backend/ingest.py:755-776 | From an empty database, one session listed under projects p and q stops the first run at the usage rebuild |
| RebuildConflicts.EmptyProjectInstance | backend/ingest.py:591-646 | From an empty database, a key with an empty project part stops the first run at the latency rebuild |
| IngestHistory.ParsesAreProper | backend/parse.py:283-318 | Every parse yields rows that fit the tables' keys: increasing record lines, numbered calls, stamped latencies |
| Database.Database.RunIngest | backend/ingest.py:335-438 | One run takes the database from its old state to the state the model gives for the stage it reached, with counts that depend on neither workers nor completion order |
| Database.Database.MainPass | backend/ingest.py:335-357 | The R2-to-database pass ends in the closed-form tables and counts, or dies with a subset of the parsable files persisted exactly when a due fetch is fatal |
| Database.Database.FetchAndPersist | backend/ingest.py:251-275 | Whatever the worker count, chunk size and completion order, exactly the parsable due files are persisted and the counts are those of the work list |
| Database.Database.PersistBatch | backend/ingest.py:265-274 | Persisting one batch in collection order handles each of its keys once |
| Database.Database.PersistOutcome | backend/ingest.py:227-248 | A parsed file is persisted and counted inserted or reparsed; an unsupported one is skipped and a failed one booked, leaving the tables alone |
| Database.Database.Persist | backend/ingest.py:873-964 | One transaction upserts the project, replaces the file row, and replaces all its records and tool calls |
| Database.Database.UpsertProjects | backend/ingest.py:278-298 | The unconditional upsert merges every seen project, in any order |
| Database.Database.DeleteOrphans | backend/ingest.py:301-313 | Files not listed go, their records and calls with them, and the count is theirs |
| Database.Database.RecomputeCanonical | backend/ingest.py:690-731 | The stored flags become the leading-row flags, and the count is the number that were wrong |
| Database.Database.RebuildRollup | backend/ingest.py:734-781 | The usage table becomes the grouped canonical records, or the rebuild raises on a key conflict and the old table stays |
| Database.Database.RebuildToolRollup | backend/ingest.py:507-552 | The tool table becomes the grouped stamped tool calls |
| Database.Database.RebuildLatencyRollup | backend/ingest.py:566-646 | Two grouped inserts per width leave each group's population, or the rebuild raises and the old table stays, exactly when a timed record is stored under an empty project id |
| LatencyRollup.Rebuild | backend/ingest.py:584-645 | Inserting, for every width, the groups by project and then over all projects fails on the table's key if and only if a timed record's project id is empty, and otherwise leaves every group's population |
| LatencyRollup.PassesMeetExactly | backend/schema.sql:151-162 | A width's two passes share a key if and only if some timed record's project id is empty |
| LatencyRollup.GroupPass | backend/ingest.py:606-612 | Adding records to their groups one at a time, in any order, builds the groups' members |
| Ingest.AfterStep | backend/ingest.py:873-964 | Persisting one more file is one more element of an order-free closed form |
| Ingest.UpsertsAbsorbed | backend/ingest.py:278-298 | The final upsert of every seen project absorbs the per-file ones |
| Plan.PlanWork | backend/ingest.py:197-224 | The plan lists every key, sees every project, and holds exactly the keys whose etag or parser version differs, in listing order |
| Plan.WholeTodoIsDue | backend/ingest.py:197-224 | The work list is the due keys, each once, each with what was stored for it |
| Plan.SeenSpans | backend/ingest.py:181-194 | A seen project spans the least and greatest modification time of its listed objects and carries its marker's name or its id |
| ProjectTimes.StoredTimesSpan | backend/ingest.py:278-298 | After any history a project's first and last times are modification times of objects of it that some run listed, and contain those of every object listed by a run that reached its upsert |
| Plan.Resolve | backend/ingest.py:441-478 | Sequential or in any completion order, every item is paired with its own outcome exactly once, and only a fatal one escapes |
| Plan.FetchWithRetry | backend/ingest.py:801-836 | The first non-transient attempt decides, a corrupt payload is not retried, a bug fails the run, three transient failures fail the object |
| Canonical.Recompute | backend/ingest.py:714-731 | Updating only rows whose flag flips equals a full overwrite, and counts the flips |
| Canonical.OneCanonicalPerUuid | backend/ingest.py:690-712 | Every non-null uuid has exactly one canonical row, its least (file key, line) |
| Canonical.SecondPassIsIdle | backend/ingest.py:701-707 | A second pass changes nothing |
| Canonical.FlagsDependOnRows | backend/ingest.py:714-727 | The flags depend only on the raw rows |
| Canonical.KimiUuidInjective | backend/parse.py:605-619 | kimi-code uuids, key and line, never collide |
| Canonical.KimiNeverDemoted | backend/parse.py:605-619 | A corpus of kimi-code files only never demotes a record |
| Grouping.Group | backend/ingest.py:755-776 | Upserting rows in any order builds the grouped sums, counts and time spans |
| Grouping.RegroupTotal | backend/api_dashboard.py:154-174 | Summing the groups under any set of labels is summing their rows |
| Grouping.RegroupSpan | backend/api_dashboard.py:263-287 | The earliest and latest time over groups are those over their rows |
| Rollups.UsageRollupIsLive | backend/api_dashboard.py:80-121 | For every whole-hour width and any filter and group, the usage rollup at `since` has the sums, counts, first and last times and sessions of the canonical records at `since` rounded down to the hour |
| Rollups.ToolRollupIsLive | backend/api.py:161-180 | For every whole-hour width and any filter and group, the tool rollup at `since` answers as the calls do at `since` rounded up to the hour |
| Rollups.UsageRollupExactAt | backend/api_dashboard.py:80-121 | For every whole-hour width, the usage rollup answers every query at `since` as the canonical records do at `since` itself if and only if no counted record is stamped in [Trunc(since), since) |
| Rollups.ToolRollupExactAt | backend/api.py:161-180 | For every whole-hour width, the tool rollup answers every query at `since` as the calls do at `since` itself if and only if no call is stamped in [since, CeilHour(since)) |
| Rollups.BucketOfHour | backend/api_dashboard.py:157-161 | Flooring to the hour does not change a bucket of whole hours |
| Rollups.LatencyAgreesExactly | backend/api.py:404-501 | A stored latency group has the live population if and only if no member precedes `since`, so always for buckets starting at or after it |
| Rollups.LatencyRollupServes | backend/api.py:404-438 | The rollup query serves a group's whole population when its bucket's midpoint is at or after `since` and nothing otherwise; that equals the live answer if and only if all members lie on the midpoint's side of `since`, so only the one straddling bucket can differ |
| Dashboard.PanelsShowTheRecords | backend/api_dashboard.py:80-121 | After any history ending in a finished run, every usage panel at every width the picker gives shows the sums, sessions and first and last times of the canonical records from its effective start |
| PanelSums.ContributesExactly | backend/ingest.py:690-776 | After any history ending finished, a stored record contributes to the usage rollup and to the live query if and only if it is stamped and has no uuid, or no stored record of its uuid has a smaller (file key, line) |
| PanelSums.DuplicatesCountOnce | backend/ingest.py:690-731 | A panel with every column wanted counts the stamped records without a uuid, and each uuid whose least record is stamped once |
| PanelSums.UsagePanelAddsUp | backend/api_dashboard.py:80-121 | Every usage panel's five numbers are the count of those records from its effective start and the sums of their uncached, output and cached tokens and cost, filtered by the columns their keys and lines give |
| PanelSums.UsagePanelCovers | backend/api_dashboard.py:263-287 | Its sessions are those of the same records' keys, and its first and last times their least and greatest stamps |
| PanelSums.ToolPanelAddsUp | backend/api.py:161-180 | Every tool panel's five numbers are the count of the stamped calls from its effective start, of those with a verdict and of those that failed, and the sums of lines added and deleted |
| TextOrder.PrecedesExactly | backend/ingest.py:701-707 | Key order is decided at the first character where two keys differ, or by the end of the shorter |
| Dashboard.ToolPanelsShowTheCalls | backend/api_dashboard.py:399-422 | The same for tool calls, error counts and edit churn |
| Dashboard.LatencyPanelsShowTheReplies | backend/api.py:539-590 | After any such history a reply-latency group is served and populated as the midpoint filter says, equal to the live answer unless its bucket straddles `since`, and then exactly when its members lie on the midpoint's side |
| Dashboard.WideBucketsAreWholeHours | backend/api.py:745-761 | The picker's widths of an hour or more are whole hours, exactly those latency_rollup is built for |
| ResponseCache.SingleFlight | backend/cache.py:129-153 | In every reachable state a key has at most one inline computation and one pending refresh, so at most two computations |
| ResponseCache.RefreshMarkIsAccurate | backend/cache.py:134-153 | A key is marked refreshing exactly when a refresh of it is being submitted, queued or run |
| ThreadTraces.StaleHitStartsRefresh | backend/cache.py:134-153 | A request whose lookup finds a stale entry returns it, and on the way finds the key's refresh mark set or sets it and enqueues a job that refreshes the key |
| ThreadTraces.RefreshPutsFirst | backend/cache.py:141-153 | A refresh job no longer holding its key's mark has put the key, with what it read itself, or its computation has raised |
| ThreadTraces.FreshHitTakesNothing | backend/cache.py:229-235 | A request whose lookup finds a fresh entry ends with that value and holds no lock and no mark from then on |
| ThreadTraces.EveryThreadRunsItsCode | backend/cache.py:134-246 | In every interleaving each thread's lookups, marks, enqueues, reads, raises and puts are, in order, those the code of its call makes |
| ThreadTraces.RequestDid | backend/cache.py:226-246 | A request that ended returned a fresh hit, a stale one after marking, what a second lookup under the lock found, or what it computed and put after two misses; it returns nothing only if its own computation raised |
| ThreadTraces.RefreshDid | backend/cache.py:141-153 | A refresh that ended put what it read, or raised, and then took its mark back |
| ThreadTraces.BypassDid | backend/cache.py:226-227 | A bypass returns what it read itself, or raises, and touches nothing shared |
| ResponseCache.NoDeadlock | backend/cache.py:203-246 | While a thread is unfinished some thread can step |
| ResponseCache.RunIsBounded | backend/cache.py:134-246 | Without new arrivals a run takes at most a fixed number of thread steps |
| ResponseCache.RunKeepsInv | backend/cache.py:116-246 | Lock ownership, pool bound, lock table and recency hold along every run |
| ResponseCache.WaiterReturnsStoredValue | backend/cache.py:236-244 | A request that rechecks the key after a successful computation returns without computing, if the entry neither expired nor was cleared |
| ResponseCache.ServedWithinTtl | backend/cache.py:86-113 | A key put within the TTL is served while no clear intervenes; invalidation never causes a miss |
| ResponseCache.FreshHitIsCurrent | backend/cache.py:86-109 | An entry put with no invalidation since its computation's first query is at least as new as the last one whenever it is flagged fresh |
| ResponseCache.FreshHitIsCurrentExactly | backend/cache.py:102-109 | In every run each hit flagged fresh was read at one step and put at a later one by one thread, and is as new as the last invalidation if and only if no invalidation between those steps followed a database change made since the read |
| ResponseCache.FreshFlagCanLie | backend/cache.py:102-109 | A run exists whose last state serves, as fresh, data older than the last invalidation |
| ResponseCache.GenerationCountsBumps | backend/cache.py:106-114 | The generation counts invalidations and clears |
| TtlCache.Store.GetEntry | backend/cache.py:86-96 | A lookup returns the value last put since the last clear if within its TTL, flagged stale exactly when an invalidation followed that put, and disturbs no later answer |
| TtlCache.Store.Put | backend/cache.py:102-104 | After a put the key is answered fresh with that value until its TTL passes, and every other key as before |
| TtlCache.Store.Invalidate | backend/cache.py:106-109 | Every lookup that would have hit still hits with the same value, now flagged stale |
| TtlCache.Store.Clear | backend/cache.py:111-114 | No lookup hits until the next put |
| TtlCache.PerformFollows | backend/cache.py:80-114 | Whatever is called, entries and generations keep matching what the calls so far determine |
| ResponseCache.LookupsFollowCalls | backend/cache.py:86-114 | In every interleaving a lookup is answered by the store calls made before it: the latest put since the last clear, stale exactly when an invalidation followed |
| IdleLru.RunKeepsOrder | backend/cache.py:19-59 | Over every sequence of gets and puts keys are distinct, entries are in order of their stamps, each the time of the latest get or put of its key, and bytes are within the cap unless one oversized entry remains |
| IdleLru.HitReturnsLastPut | backend/cache.py:33-40 | A hit returns the bytes last put under its key |
| IdleLru.StampIsLastUse | backend/cache.py:19-40 | A stored entry's stamp is the time of the latest hit or put of its key |
| IdleLru.HitMovesToEnd | backend/cache.py:33-40 | A hit moves its entry to the recent end, bytes kept and stamped now, and leaves the others in order |
| IdleLru.SurvivesExactly | backend/cache.py:47-49 | Of the other entries not idle one survives a put if and only if it and all used after it fit beside the new bytes |
| IdleLru.FittingSuffixIsLongest | backend/cache.py:47-49 | A put keeps the longest recency suffix that fits beside the new entry |
| IdleLru.PutKeepsOrder | backend/cache.py:42-51 | A put keeps order, distinctness and the cap |
| IdleLru.IdleLruCache.Get | backend/cache.py:33-40 | A hit returns the stored bytes and moves the entry, stamped now, to the recent end with the others in order; a miss changes nothing |
| IdleLru.IdleLruCache.Put | backend/cache.py:42-51 | A put leaves the surviving suffix and the new entry, the size counter the sum of stored lengths |
| IdleLru.IdleLruCache.EvictIdle | backend/cache.py:53-59 | Exactly the entries idle past the limit go |
| Sessions.MissedExactly | backend/api_sessions.py:232-307 | A finished traversal misses exactly the dated sessions tied with some page's last row and not on it, and the undated ones not on page one |
| Sessions.ListedOnceDescending | backend/api_sessions.py:290-307 | Whatever the ties, nothing repeats and the order is descending |
| Sessions.ListsEverySessionOnce | backend/api_sessions.py:290-307 | With distinct non-null times every session is listed exactly once |
| Sessions.NothingMissedExactlyWhen | backend/api_sessions.py:220-229 | Every client sees every session if and only if times are distinct and non-null, or there is at most one session |
| Sessions.ChainIsBounded | backend/api_sessions.py:299-307 | Following cursors ends within one page more than there are sessions |
| Transcript.Parse | backend/parse.py:458-687 | The streaming parser's records, context rows and tool calls are the fold of its step over the lines, with the shared tail |
| Transcript.ParseState.OnLine | backend/parse.py:442-455 | One line takes the mutable state to the step function's state, in either format |
| Transcript.ParseState.AppendUsageRecord | backend/parse.py:283-318 | A usage line appends one priced record, consumes the anchor and joins the open turn |
| Transcript.CtxTurnsFromTurns | backend/parse.py:334-361 | The loop yields one row for each turn whose last record has positive input |
| Transcript.ResolveToolErrors | backend/parse.py:321-331 | Each call gets the recorded verdict, and a failed one loses its churn |
| TranscriptTurns.FinishedTurnsAreOk | backend/parse.py:143-167 | For every event sequence in either format the turns, which are those TurnsAreStarts names, are in order, share no record line, and list exactly the records seen while open |
| TranscriptTurns.SpansDisjoint | backend/parse.py:163-167 | Only the last turn may be unfinished, and no two turns' spans overlap |
| TranscriptTurns.ContextRows | backend/parse.py:334-361 | Context rows are numbered 1..n on strictly increasing lines with positive inputs, and deltas over every prefix sum to that row's input |
| TranscriptRows.RowExactlyWhen | backend/parse.py:143-167 | Usage line k has a context row if and only if its input is positive, some line before it started a turn no line since has ended, and no other usage line follows before that turn ends |
| TranscriptRows.RowShowsItsLine | backend/parse.py:334-361 | Every context row is a usage line's and shows that line's stamp, its uncached, created and cached tokens together, and its output |
| TranscriptRows.TurnsAreStarts | backend/parse.py:151-167 | The finished turns begin at exactly the lines that start a turn, in order and with their stamps |
| TranscriptRows.TurnsHoldLasts | backend/parse.py:143-167 | A finished turn ends with usage line k if and only if, by the lines, k is the last usage of a turn |
| TranscriptReplies.StreamingRefinesTwoPass | backend/parse.py:283-318 | The streaming records are those of a reading that looks back over the lines before each usage line |
| TranscriptReplies.LatencyAndText | backend/parse.py:151-187 | A record has latency d if and only if a boundary is the latest arming event before it, no usage record or legacy TurnEnd closed it since, and it comes d later; its text count is the text since the latest turn start |
| TranscriptReplies.RecordMeans | backend/parse.py:283-318 | A record has its line's number, stamp and tokens; its uuid is the message id if not empty in a legacy transcript and key and line in a kimi-code one; a stamped one is labelled as of its own stamp |
| TranscriptReplies.UnstampedIsLabelledByFirstStamp | backend/parse.py:283-298 | A record without a stamp is labelled as of the first stamped line up to it |
| TranscriptReplies.AnchorMeans | backend/parse.py:387-391 | The anchor is the stamp of the latest boundary not yet closed; step.begin does not close it |
| TranscriptReplies.TextMeans | backend/parse.py:568-573 | Text restarts at every boundary and every step.begin naming another turn |
| TranscriptReplies.ReportedTools | backend/parse.py:266-331 | Tool calls come out in order, numbered, each on its own line with that line's stamp, with the last verdict naming it, and without churn if that is an error |
| ModelLabels.LabelPricesExactly | backend/parse.py:70-103 | Every label is a table key and prices exactly; K3 rates are reached exactly by naming k3 or by naming nothing after the K3 cutoff, the K2.6 label exactly by a stamp before the first cutoff without naming k3 |
| ModelLabels.NewerRecordNewerGeneration | backend/parse.py:89-103 | Later records never get an older generation |
| ModelLabels.LastPartIsSuffix | backend/parse.py:56-67 | The id matched is what follows the last slash |
| Pricing.SearchOrderIrrelevant | backend/pricing.py:91-104 | No id matches two keys, so the table's search order does not matter |
| Pricing.SuffixDecides | backend/pricing.py:91-104 | A key with a suffix is that key if and only if the suffix is empty, a bracket, an "@" or a snapshot date |
| Pricing.KeyResolvesToItself | backend/pricing.py:107-112 | Every key resolves exactly to itself |
| Pricing.SpellingResolves | backend/pricing.py:75-88 | A key is recognised in either case, with dots for its dashes, and with white space around it |
| Pricing.RatesExactly | backend/pricing.py:107-119 | An id naming a key is charged that key's rates, and any other id K2.6's as an estimate |
| Pricing.SnapshotExactly | backend/pricing.py:56-56 | A snapshot date is six to eight digits, after a dash or not |
| Pricing.RoundIsNearest | backend/parse.py:297-312 | Rounding gives the nearest multiple, and of two equally near the even one |
| Pricing.CostIsAdditive | backend/pricing.py:122-137 | Pricing a sum of tallies is summing their prices |
| ModelSummary.TotalBalances | backend/api.py:785-829 | Over n records and m models the reported total and the reported buckets differ by at most n * 0.0000005 + m * 0.0002 USD |
| ModelSummary.TotalBucketsAreSpent | backend/api.py:785-829 | Each reported bucket is, to 0.00005 USD a model, what the uncached, cached or output tokens alone cost over all the records at their own models' rates |
| ModelSummary.TotalCostIsStored | backend/api.py:785-829 | The reported total cost is, to 0.00005 USD a model, the sum of the stored costs |
| ModelSummary.ParserStoresThisCost | backend/parse.py:297-312 | For any usage line the parser stores the rounded cost of its tally under its label, which prices exactly |
| ModelSummary.TotalIsSumOfRows | backend/api.py:812-825 | Rounding the sums of already rounded rows changes nothing |
| ModelSummary.GroupsPartition | backend/api.py:899-911 | Every record falls in exactly one model row |
| Heredoc.SplitHeredocs | backend/bash_churn.py:70-105 | The index loop returns the pairs and leftover of the recursive split |
| Heredoc.TerminatesExactly | backend/bash_churn.py:95-100 | A line ends a heredoc if and only if it is the tag with nothing but white space around it |
| Heredoc.BodiesComeOut | backend/bash_churn.py:84-104 | A line's bodies come out in order, each under that line stripped of its openers |
| Heredoc.LineIsLeft | backend/bash_churn.py:80-83 | Every line outside a body is left over in its place, stripped of its openers |
| Heredoc.SplitLosesNothing | backend/bash_churn.py:70-105 | Every input line lands exactly once, in order, outside, in a body or as a terminator |
| Heredoc.SplitUndoesPrint | backend/bash_churn.py:70-105 | Printing well-formed chunks and splitting returns them |
| Heredoc.SplitConcat | backend/bash_churn.py:70-105 | Splitting a concatenation whose first part is fully terminated is concatenating the splits |
| Heredoc.HeredocChurnAdds | backend/bash_churn.py:270-293 | So heredoc churn adds |
| Heredoc.FileBodyCountsItsLines | backend/bash_churn.py:62-67 | A file body counts its lines, a single empty line counting 0 |
| Heredoc.BodyCountsByItsLines | backend/bash_churn.py:270-287 | Under a patch context a joined body counts its own lines by sign; under a file-writing one its number of lines |
| Heredoc.DashIsIrrelevant | backend/bash_churn.py:95-100 | Stripping makes both heredoc operators end at the same lines |
| Heredoc.DiffChurn | backend/bash_churn.py:119-130 | A patch adds its lines beginning with one plus sign and deletes those beginning with one minus sign, three of either being a header |
| Heredoc.BashChurn | backend/bash_churn.py:270-293 | A command's churn is its heredocs' plus what the given script scan finds in the leftover |
| TimeSeries.BoundedTimeIntervals | src/dashboard-charts.jsx:212-222 | Bins tile the range with the last one capped, and bad ranges or widths throw |
| TimeSeries.BuildTimeSeriesData | src/dashboard-charts.jsx:224-250 | Both scans run over one tiling; bins and points are what they build |
| TimeSeries.BinTakesWhatItHolds | src/dashboard-charts.jsx:227-236 | For time-sorted events a bin takes exactly those it holds, the first also the earlier ones |
| TimeSeries.ExactlyOneBin | src/dashboard-charts.jsx:212-222 | Every time before the range's end is in exactly one bin |
| TimeSeries.PointIsPrefixSumOfBins | src/dashboard-charts.jsx:238-248 | The second scan's points are the prefix sums of the first scan's bins |
| TimeSeries.BinsHoldTheTotal | src/dashboard-charts.jsx:224-250 | The bins count every event before the range's end once, and sum to the total |
| TimeSeries.HoverSelectsTheHoldingBin | src/dashboard-charts.jsx:252-268 | Hovering at a time's own position selects the bin holding it |
| BinPicker.BucketSeconds | backend/api.py:748-761 | The early-break loop picks the largest candidate giving at least 100 bins, else the smallest |
| BinPicker.DashboardBinMs | src/app.jsx:696-716 | The client picks likewise and never goes below the server's bucket |
| BinPicker.CandidatesChain | backend/api.py:745-745 | Of any two candidates one divides the other |
| BinPicker.RangeIsTheBuckets | src/app.jsx:441-449 | The widened range is exactly the union of the server buckets shown |
| BinPicker.RangeHolds | src/app.jsx:441-449 | With or without a server bucket the range holds every instant from the first event to the last |
| BinPicker.NoAggregateIsSplit | src/app.jsx:696-716 | Every server bucket lies wholly in one display bin, the only one holding its midpoint |
| TurnSegments.SegmentersAgree | src/app.jsx:56-98 | From the first user text on both segmenters select the same last non-zero usages, records without a timestamp apart |
| TurnSegments.StatsSelectsExactly | src/context-growth-view.jsx:13-75 | The Inspector selects, in line order, exactly the non-zero usages standing after some text and right before another text or at the end |
| TurnSegments.SelectedExactly | src/context-growth-view.jsx:13-75 | A usage is selected if and only if it is the last of some turn and not zero |
| TurnSegments.StampedExactly | src/app.jsx:56-98 | The dashboard drops exactly the selected usages without a timestamp |
| TurnSegments.WalksAgree | src/context-growth-view.jsx:13-75 | The two-pointer walk's turns are the merged-sort walk's turns from the first bound on |
| TurnSegments.SortOrders | src/context-growth-view.jsx:13-75 | The stable sort orders by line and keeps every item |
| TurnSegments.DashTurns | src/app.jsx:56-98 | The `bi`/`cur` loop computes the two-pointer walk |
| TurnSegments.StatsTurns | src/context-growth-view.jsx:13-75 | The Inspector's loop computes the merged walk |
| TurnSegments.StatsRows | src/context-growth-view.jsx:13-75 | Each row shows its usage's line and context, its number, and, but for the first, the growth since the row before |

## Left out

- SQL text, connection pools, schema migration and object-store access: each query is its relational meaning over maps.
- Project markers: their fetch and decoding is given as the names the run found, so marker failures are not in the failure count.
- Percentiles and the outlier dots' tie-breaking: a latency group is its population, of which both are functions.
- The sub-hour latency path and the latency endpoint's unresolved-projects filter: they use the live query. On the other panels that filter is one of the arbitrary filters over the project.
- PostgreSQL time zones and daylight saving: hours are whole hours of epoch time.
- Key collation: keys are ordered by code point.
- `parsed_at`, `turn_count`, sizes and rate-limit hits of a file row: stored as given.
- Python-AST churn and the `-c` scan: given as a function of the leftover text, for which additivity does not hold.
- The regular expressions of the churn scan: the openers of a line and the context classifiers are given functions.
- `_edit_churn` and JSON decoding: a parsed line carries its call's churn and its text length.
- `turn_has_assistant_event`: it is written and never read.
- Non-ASCII case folding, white space and digits in model ids.
- Floating-point error: cost is in exact integers, chart positions in exact reals, and `reply_latency_s` is not rounded.
- `src/parser.js`: the client's own parser emits other rows and is not claimed to match the backend.
- The `session_count` quirk of the hourly rows and the folds by model and by project: sums of rows already covered.
- React rendering, login, events and command-line tools.
- IngestConvergence.CaughtUpDatabasesAgree: assumes an etag names its content and that parsing is deterministic, and says nothing of modification times and project names.
- Database.Database.RunIngest: a fatal fetch is the only exception that ends a run in the method; deaths at other transaction boundaries are stages of the history model.
- IngestHistory.SettledBucketStaysSettled: says nothing of the projects table, whose display names follow the markers; ChangeFlag.SettledRenameIsSilent does.
- ResponseCache.FreshHitIsCurrent: data versions are abstract numbers, a response is as new as its first query, and invalidation is taken to follow the change it announces.
