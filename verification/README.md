# Verified model of the Docker log cleanup agent

A Dafny model of the agent's cleanup engine and of everything that must agree with it: the
log files, the two SQLite tables, the Prometheus and self-monitor counters, and any number of
overlapping pipelines. `dafny verify dfyconfig.toml` checks the whole project.

## What is modelled

* **Files** (`LogFiles`, `Policies`): a map from path to size in bytes. Containers append at
  any moment, also between the stat and the truncate of one policy. Every answer of the
  kernel may be a failure.
* **One run** (`Cleanup`, with `Docker`, `Tables`, `Ranking`): `Cleanup.Run` says what a call
  of `Run` does to the files, the tables and the last result, for every environment: the
  discovered paths, the answers of the kernel and of Docker, the order the unstable sort leaves
  among ties, the clock, the fate of the transaction. `ScanLaws`, `SweepLaws` and `RunLaws`
  hold the theorems about it, `RunTells` what its results say in terms of the files and the
  answers alone, `History`, `Convergence` and `Unsettled` those about sequences of
  runs, and `Recording` what runs leave in the tables for the queries to see.
* **The object** (`Cleaner`, `Storage`, `Metrics`, `Pipeline`): the cleaner, the database
  handle, the registry and the pipeline as classes that change their fields, with the loops of
  the source. `Cleaner.LogCleaner.Run` is proved to do exactly what `Cleanup.Run` says.
* **The agent** (`Agent`): a state machine with one label per atomic step of one party:
  pipelines started by cron or at startup, loggers, callers of `LastResult`, the main
  goroutine. A run under the lock takes one step per system call, and `RecordRun` one step per
  counter. `Serial` proves that every schedule is equivalent to the serial one in lock order;
  `AgentBooks` the counting laws at every reachable state; `DiskBooks` ties the space counter to
  the bytes on disk; `OwnRows` shows that a pipeline finds its own rows, `Reporting` that it takes every step of
  `RecordRun`; `AgentLaws` has progress, which logs can shrink, and shutdown; `Openness` what the machine leaves open. The fields `history`, `base` and `pending` only record the serial order
  for the proofs; no step reads them.
* **Around it** (`Recommendation`, `RecommendationLaws`, `DockerSummary`, `Telemetry`): the recommendation loop, the
  fleet summary, and the hand-written number formatting.

Sizes are whole bytes. A size in MB is the byte count divided by 1024 twice, which is exact in
double precision below 2^53, so `SizeMB < ThresholdMB` is a comparison of bytes with
`ThresholdMB * 1048576`. `ThresholdMB` and `TopConsumers` are arbitrary integers, because
`validate` leaves them unconstrained.

## Where code and documentation differ

The model follows the code. README.md below is the agent's own, at the root of its repository.

* The configuration reference says that logs larger than the threshold are truncated
  (README.md:84); a log of exactly that size is truncated too (internal/cleanup/cleaner.go:192):
  `Convergence.ExactSizeIsTruncated`, and in general `RunLaws.SweepTruncatesEligible`.
* It says that excluded containers are never truncated (README.md:87-88). When the inspect call
  fails, the name falls back to the id and the exclusion is lost;
  `RunLaws.ExclusionHoldsExactly` gives the exact condition.
* It says that containers cleaned 18 or more times are flagged (README.md:17). The tables know a
  container only by the name that the first inspect of a run gave, or by its full id when that
  failed, and the agent asks about the name that the second inspect gives, or about the first
  twelve characters of the id. The statement is right about the truncated rows of a name exactly
  when the name is asked about, the query is answered, and no row of the name in the window was
  left untruncated: `RecommendationLaws.RecommendedAsDocumentedExactly`, and in terms of a run
  `RecommendationLaws.RunAdvisesAsDocumentedExactly`. It fails in both directions: dry runs alone
  lead to a recommendation (`RecommendationLaws.NeverTruncatedIsRecommended`), and a name that was
  truncated any number of times is not recommended when the second inspect fails
  (`RecommendationLaws.TruncatedButNotRecommended`).
* `ErrAlreadyRunning` says that a run is in progress; a `LastResult` caller holding the mutex is
  enough: `Serial.RefusedExactly` and `AgentLaws.RefusedWithoutARun`. No code of the repository
  calls `LastResult`, so this arises only for users of the exported `Cleaner` interface.
* `RunNow` returns nil after a panic, in `Run` or after it, so the startup run is not logged as
  failed: `Pipeline.Process.RunNow`, with `Convergence.PanickingRunExists` for a run that panics.
* `intToStr` of the minimum int64 is a lone minus sign: `Telemetry.IntTextReadsBackExactly`.
* A threshold of zero or less passes validation. Truncating then never settles unless every log
  is excluded; deleting does: `Convergence.RunSettles`, `Convergence.CleaningConverges` and
  `Unsettled.NeverSettles` together say exactly when cleaning converges.

## Model

| member | source | states |
|---|---|---|
| `Serial.EveryScheduleIsSerial` | internal/cleanup/cleaner.go:89-99 | At every reachable state of any number of overlapping pipelines, loggers and `LastResult` callers: at most one party holds the mutex; files, tables and last result are those of the accepted runs executed one after another in lock order (plus the explained progress of the run inside); every returned caller was told what its own turn yields when run alone; every reader got the last result of a serial prefix, never a partial one |
| `Serial.MutualExclusion` | internal/cleanup/cleaner.go:96-99 | Two pipelines past `TryLock` at one reachable state are the same pipeline |
| `Serial.RefusedExactly` | internal/cleanup/cleaner.go:96-98 | A call is refused if and only if another run is past `TryLock` or a `LastResult` caller holds the mutex, and a refusal changes nothing but what that caller is told |
| `AgentLaws.RefusedWithoutARun` | internal/cleanup/cleaner.go:20-98 | A schedule in which `ErrAlreadyRunning` is returned although no run is in progress: the text of that error is false there |
| `AgentLaws.EveryTurnHasItsCaller` | internal/cleanup/cleaner.go:95-99 | At every reachable state each run in the serial order belongs to some caller; with the distinct turns of `Serial.EveryScheduleIsSerial`, to exactly one |
| `Serial.StepKeeps` | internal/cleanup/cleaner.go:106-273 | Each single step of a run under the lock (one stat, the sort, one decision, a policy stat, a policy change, collecting, persisting, publishing) keeps the shared state equal to a prefix of the sequential `Cleanup.Run` on the answers received so far |
| `Serial.WriteKeeps` | internal/cleanup/cleaner.go:127-215 | An append that lands at any moment inside a run keeps that same relation: it is charged to the next tick of the environment |
| `Serial.JobDone` | internal/cleanup/cleaner.go:266-273 | A run about to release the mutex has done to files, tables and last result exactly what the sequential run does, replayed with the appends that landed last |
| `Serial.LockStep` | internal/cleanup/cleaner.go:89-99 | The mutex is held by a pipeline exactly while that pipeline is inside `Run`, and by a reader exactly while it is inside `LastResult`; every step keeps this |
| `Serial.TurnStep` | internal/cleanup/cleaner.go:95-273 | Every step keeps the invariant that returned callers have distinct turns whose serial runs yield what they were told |
| `AgentLaws.RunIsNeverStuck` | internal/cleanup/cleaner.go:99-273 | At every reachable state, a run that holds the mutex has a next step until it is about to release, and then the release, panicking runs included |
| `AgentLaws.RunAdvances` | internal/cleanup/cleaner.go:99-273 | Each step of a run lowers a measure bounded below, so with `AgentLaws.RunIsNeverStuck` the mutex is always given back |
| `AgentLaws.LockIsGivenBack` | internal/cleanup/cleaner.go:96-99 | From every reachable state in which a run holds the mutex, its own steps alone reach a state where the mutex is free and its caller has been told how its turn ended, panicking runs included |
| `AgentLaws.OnlyPoliciesShrinkLogs` | internal/cleanup/policies.go:40-69 | In every schedule the only step that shortens or removes a log is the change of the truncate or delete policy in a real run, on a log which a stat of that same run found at or above the threshold under a name that is not excluded |
| `AgentLaws.CurrentWasFound` | internal/cleanup/cleaner.go:190-204 | At every reachable state the entry a run is deciding about was built by one of its own stats |
| `AgentLaws.TablesAlwaysBalance` | internal/storage/sqlite.go:157-191 | From tables in order, the tables are in order at every reachable state, in the middle of runs included |
| `AgentLaws.MainAlways` | cmd/agent/main.go:163-186 | When the agent waits for the signal its startup run has ended; when `sched.Stop` has returned every pipeline has ended |
| `AgentLaws.NothingRunsAfterStop` | internal/scheduler/scheduler.go:69-74 | Once `sched.Stop` has returned, no step touches a pipeline, the tables or the last result, so nothing uses the database after the deferred close |
| `AgentBooks.EveryPipelineIsCountedOnce` | cmd/agent/main.go:70-93 | At every reachable state: pipelines started = `cleanup_runs_total` over both labels + self-monitor cleanup errors + panicked before being counted + in flight |
| `AgentBooks.EarnedIsCountedOrOwed` | internal/metrics/prometheus.go:119-140 | At every reachable state, for each counter: the sum over the results that `Run` returned = the counter + what is still owed to it by pipelines between `Run` and that counter step |
| `AgentBooks.CountersAlways` | internal/metrics/prometheus.go:126-130 | With the counter updates as separate steps of overlapping pipelines, each counter is the sum of what the pipelines past that update contributed, and the cleanup-error counter is the number of pipelines that returned an error |
| `AgentBooks.FailuresAlways` | internal/metrics/prometheus.go:132-139 | `cleanup_failures_total` of a phase is, at every reachable state, the errors of that phase in the results whose map iteration has passed it |
| `AgentBooks.RowsAlways` | internal/cleanup/cleaner.go:237-264 | What `cleanup_runs` has gained since boot, in runs, logs cleaned and space, is at every reachable state what the pipelines committed |
| `AgentBooks.BooksAgree` | cmd/agent/main.go:70-93 | The counters differ from the gain of the run table by exactly the in-flight, crashed and unwritten pipelines; they are equal once every pipeline has ended without a panic and no write failed |
| `Openness.PipelinesOverlap` | internal/scheduler/scheduler.go:25-46 | There is a schedule in which one pipeline is inside `Run` while any number of others, started by cron after it, have been refused: ticks do not wait |
| `Openness.AnyAnswerCanCome` | internal/cleanup/cleaner.go:106-264 | Where one answer of the kernel, Docker, the sort or the database can come, any other answer to the same question can |
| `Openness.AnswersAreKept` | internal/cleanup/cleaner.go:101-264 | What a step is answered is what the run goes on with: paths, stats, inspects, order, policy calls, times and the fate of the transaction |
| `Openness.EnteringKeepsTheTime` | internal/cleanup/cleaner.go:96-104 | A call that gets the mutex starts from the time it read, on the world it found |
| `Openness.LoggersAreNeverHeldUp` | internal/cleanup/policies.go:40-69 | A logger can append in every state, whoever holds the mutex; its file grows by those bytes and no other file changes |
| `Openness.AnyStageCanPanic` | internal/scheduler/scheduler.go:41-45 | A pipeline can panic at every stage after `Run`, and leaves everything else as it is |
| `DiskBooks.SpaceCounterIsFreed` | internal/metrics/prometheus.go:128-128 | At every reachable state, in the middle of runs included: the space counter + what is owed to it + what panicked runs reclaimed = what the finished runs reclaimed; adding what the run inside has reclaimed so far, the bytes freed unreported and those on disk gives the bytes at boot + all appended since, so the counter never exceeds the bytes that have gone |
| `DiskBooks.JobConserves` | internal/cleanup/cleaner.go:127-215 | At every moment of a run, half-way through a policy included: bytes on disk + reclaimed so far + freed uncounted so far = bytes when it took the mutex + appended since |
| `AgentBooks.FailuresAgree` | internal/metrics/prometheus.go:132-139 | Once every pipeline has ended without a panic and no write failed, the two failure counters add up to the errors listed in the run rows gained since boot, and no other phase has been counted |
| `AgentBooks.RunHasTwoPhases` | internal/cleanup/cleaner.go:127-215 | Every error of a completed run is of the stat or the truncate phase |
| `OwnRows.PipelineSeesItsRows` | cmd/agent/main.go:90-97 | In every schedule, from the return of `Run` on, and so when it analyses, a pipeline whose rows were committed finds its run row and its child rows in the tables, at the places where the serial order put them |
| `OwnRows.RowsAreTheirOwn` | cmd/agent/main.go:90-97 | Those places differ between pipelines: the ones of a later turn lie behind the ones of an earlier turn |
| `OwnRows.HistoryGrowsTables` | internal/storage/sqlite.go:157-191 | Over every history, rows are only added |
| `DiskBooks.ToldAlways` | internal/cleanup/cleaner.go:211-273 | At every reachable state, what the calls of `Run` told their callers they reclaimed is what the runs of the serial order reclaimed, panicked runs apart |
| `Metrics.StepsAddUpToRecordRun` | internal/metrics/prometheus.go:120-140 | The separate counter steps of an undisturbed pipeline add up to `RecordRun`, whatever the iteration order of the phase map |
| `Reporting.ReportsFully` | internal/metrics/prometheus.go:120-140 | From the first counter, in any state of the machine, the steps of one reporting pipeline alone lead it to the analysis, in any order of the phases, and leave exactly what `RecordRun` leaves, counter by counter, and nothing else changed; so no step of `RecordRun` is missed |
| `Reporting.GaugesWereSet` | internal/metrics/prometheus.go:129-130 | In every schedule a pipeline past the gauges has itself taken a step after which both showed the values of its result |
| `Reporting.DurationWasSet` | cmd/agent/main.go:77-77 | In every schedule a pipeline past its first step has itself set the self-monitor duration to that of its result |
| `Reporting.StageByStage` | cmd/agent/main.go:77-97 | A receipt stays with its pipeline, which starts at the first stage and moves on by its own steps only, at most one stage at a time |
| `Metrics.RecordedIs` | internal/metrics/prometheus.go:120-140 | What `RecordRun` leaves: one more run under the right label, the two totals, both gauges, and for each phase the number of errors that name it |
| `Metrics.Registry.RecordRun` | internal/metrics/prometheus.go:120-140 | The method adds one run to the right label, the logs, the space and, per phase, the number of errors naming it, sets both gauges, and nothing else |
| `Metrics.Registry.CountPhases` | internal/metrics/prometheus.go:132-136 | The map built by increments holds, for exactly the phases that occur, how many errors name each |
| `Metrics.Registry.AddCounts` | internal/metrics/prometheus.go:137-139 | Adding the counts in any order of iteration gives the sum per phase and leaves other phases alone |
| `Cleaner.LogCleaner.Run` | internal/cleanup/cleaner.go:95-274 | The mutating method, loop by loop on an array aliased by `AllEntries`, does to files, tables, last result, log and return value exactly what `Cleanup.Run` says; a busy cleaner changes nothing; the mutex is free on every way out, panic included |
| `Cleaner.LogCleaner.ScanLoop` | internal/cleanup/cleaner.go:127-159 | The stat loop yields the entries, stat errors and snapshot rows of the specification |
| `Cleaner.LogCleaner.SortEntries` | internal/cleanup/cleaner.go:161-164 | The result is a permutation of the entries in descending size |
| `Cleaner.LogCleaner.BuildLists` | internal/cleanup/cleaner.go:166-186 | The array holds one listed entry per sorted entry with its exclusion flag; TopConsumers is a copy of the first topN, or of five when topN is not positive |
| `Cleaner.LogCleaner.SweepOne` | internal/cleanup/cleaner.go:190-214 | One iteration: skip below threshold, log and skip excluded, log only in a dry run, else apply the policy, and flag and count only on success |
| `Cleaner.LogCleaner.SweepLoop` | internal/cleanup/cleaner.go:188-215 | The whole loop in place equals the fold of the iterations, with appends landing between any two system calls |
| `Cleaner.LogCleaner.JoinSizes` | internal/cleanup/cleaner.go:227-234 | The nested loop with its break gives each insight the size of the first entry with its id |
| `Cleaner.LogCleaner.Enrich` | internal/cleanup/cleaner.go:220-235 | Insights are collected from the paths of the sorted entries and joined, only with a Docker client; a panic in the collection is reported |
| `Cleaner.LogCleaner.SaveRun` | internal/cleanup/cleaner.go:237-264 | With a database the run and its entries are committed or not at all; a failed write is not an error of the run |
| `Cleaner.LogCleaner.Conclude` | internal/cleanup/cleaner.go:217-274 | On a panic neither tables nor last result change; otherwise result, run row and last result agree |
| `RunLaws.RunAccounts` | internal/cleanup/cleaner.go:127-215 | For any completed run in any mode: discovered = entries + stat errors; entries = below threshold + excluded over threshold + eligible; outside a dry run eligible = logs cleaned + truncate errors; logs cleaned = flagged entries; a dry run or an unimplemented mode cleans and reclaims nothing |
| `RunLaws.RunTopConsumers` | internal/cleanup/cleaner.go:162-192 | TopConsumers has min(TopConsumers setting, or 5 when that is not positive, n) entries, in descending size, equals the prefix of AllEntries except for the truncation flags, which are all clear in it, and no other choice of that many discovered entries has more bytes |
| `RunTells.BelowMeansMb` | internal/cleanup/cleaner.go:133-194 | The loop skips an entry exactly when its size in bytes, divided by 1024 twice, is below ThresholdMB |
| `RunTells.RunCleansBySize` | internal/cleanup/cleaner.go:127-215 | With a kernel that refuses nothing, a real run over distinct paths cleans exactly the logs whose size in bytes divided by 1024 twice reaches ThresholdMB and whose name is not excluded |
| `RunTells.EntriesTellTheTruth` | internal/cleanup/cleaner.go:127-185 | Each listed entry repeats one discovered path: the size on disk at its stat, the id of its directory, the name (without one leading slash) and image that Docker answered, or the id and nothing; and it is marked excluded exactly when that name is in the list |
| `RunTells.ErrorsAndLogTell` | internal/cleanup/cleaner.go:128-214 | The errors of a run are its failed stats in order of discovery and then, in sorted order, the entries that reach the threshold, are not excluded and were not cleaned, each with phase and path; its log has exactly one line for each entry that reaches the threshold, which says what its mark and flag say |
| `RunTells.RunSnapshotsTell` | internal/cleanup/cleaner.go:147-150 | With a database, each entry whose snapshot insert succeeds leaves one snapshot of its id, name and size, in order of discovery; without one there are none |
| `RunTells.InsightsTellTheTruth` | internal/cleanup/cleaner.go:220-235 | With a Docker client the insight of each sorted entry carries, field by field, what the second inspect answered, or the twelve-character name and nothing else, and the largest size of its id; without one there are none |
| `RunTells.EndingsTell` | internal/cleanup/cleaner.go:101-274 | A run whose discovery fails changes nothing; one that completes publishes as last result what it returns, with the times it read and their difference; only those publish |
| `RunLaws.RunConserves` | internal/cleanup/cleaner.go:189-213 | Bytes after + reclaimed + what was appended to truncated logs between their policy stat and change = bytes before + everything appended; so reclaimed never exceeds what was removed; panicking runs included |
| `RunLaws.RunReclaimsAtLeast` | internal/cleanup/cleaner.go:189-213 | With distinct paths, reclaimed is at least the discovered sizes of the flagged entries, hence at least logs cleaned times the threshold |
| `RunLaws.DryRunPredicts` | internal/cleanup/cleaner.go:171-215 | From the same discovery and tie order, a dry run logs as "would truncate" exactly the paths a real run passes to its policy, in order, with identical TopConsumers and AllEntries equal but for flags; it changes no file and reports zero, whatever the policies would meet |
| `RunLaws.RunSpares` | internal/cleanup/cleaner.go:190-204 | A log that a run sees only as excluded or below the threshold is neither shortened nor removed: it holds what it held plus what was appended |
| `RunLaws.ExcludedIsNeverEligible` | internal/cleanup/cleaner.go:112-145 | A path whose name resolves to an excluded one at each of its stats has no eligible entry |
| `RunLaws.OnlyEligibleAreTruncated` | internal/cleanup/cleaner.go:179-210 | Every flagged entry was found by a stat of this run at or above the threshold under a name not excluded |
| `RunLaws.SweepTruncatesEligible` | internal/cleanup/cleaner.go:189-215 | When no system call fails, the flagged entries are exactly the eligible ones |
| `RunLaws.ExclusionHoldsExactly` | internal/cleanup/cleaner.go:135-145 | For a log over the threshold of a container with an excluded name, "never truncated" holds if and only if the inspect call was answered (with a Docker client) or the raw id is excluded too |
| `RunLaws.RunPanicsExactly` | internal/docker/insights.go:81-87 | `Run` panics if and only if it has a Docker client and the second inspect of an entry with an id shorter than twelve characters fails; by then the files are changed and no run row or last result exists |
| `RunLaws.RunInsightNames` | internal/docker/insights.go:81-89 | The insight of an entry is named by its second inspect: the answered name without its slash, or the first twelve characters of the id when that inspect fails |
| `RunLaws.RowsAndInsightsAgreeExactly` | internal/cleanup/cleaner.go:135-145 | With the same answer in both rounds of inspects, the row and the insight of an entry bear the same name if and only if Docker answered or the id has twelve characters |
| `RunLaws.RunInsightsJoin` | internal/cleanup/cleaner.go:222-234 | Insights follow the sorted entries one for one by id, and each carries the largest size among all entries with its id |
| `RunLaws.RunKeepsBooks` | internal/cleanup/cleaner.go:237-264 | One run, completed or not, keeps every run row equal to its truncated children and every child parented |
| `RunLaws.FirstIsLargest` | internal/cleanup/cleaner.go:228-232 | In a descending list the first entry with an id has the largest size among those with that id |
| `ScanLaws.ScanCounts` | internal/cleanup/cleaner.go:127-159 | Each discovered path becomes one entry or one stat error; the files only receive appends |
| `ScanLaws.ScanFound` | internal/cleanup/cleaner.go:127-159 | Every entry comes from an answered stat of its own path and carries the id, name and image resolved there |
| `ScanLaws.OrderHasPathIds` | internal/cleanup/cleaner.go:135-158 | Each sorted entry carries the id of its own path, so collecting insights by path or by entry id is the same |
| `ScanLaws.EntriesDistinct` | internal/cleanup/cleaner.go:127-164 | Distinct paths give sorted entries with distinct paths, whatever order the sort leaves among ties |
| `SweepLaws.SweepFlags` | internal/cleanup/cleaner.go:190-210 | Only visited, eligible entries are ever flagged, never in a dry run or an unimplemented mode; the loop changes nothing else in the list |
| `SweepLaws.SweepCounts` | internal/cleanup/cleaner.go:189-215 | The loop counts flags, errors by phase and eligible entries consistently in every mode |
| `SweepLaws.SweepLog` | internal/cleanup/cleaner.go:195-213 | The paths logged as handled are exactly the eligible ones, in list order, in dry and real runs alike |
| `SweepLaws.SweepConserves` | internal/cleanup/cleaner.go:204-212 | Bytes are conserved over the loop, with the gap of late appends made explicit |
| `SweepLaws.SweepReclaims` | internal/cleanup/cleaner.go:204-212 | With distinct logs, the loop reclaims at least the discovered sizes of what it flags |
| `SweepLaws.SweepSpares` | internal/cleanup/cleaner.go:190-204 | A path without an eligible entry only grows over the loop |
| `SweepLaws.SweepHandsOff` | internal/cleanup/cleaner.go:200-202 | In a dry run or an unimplemented mode the loop only lets time pass |
| `SweepLaws.GapNonNegative` | internal/cleanup/policies.go:40-69 | The bytes freed without being reported are never negative |
| `Ranking.PrefixIsHeaviest` | internal/cleanup/cleaner.go:161-183 | The first k of a descending permutation weigh at least as much as any other k of the items |
| `Ranking.SomeRanking` | internal/cleanup/cleaner.go:161-164 | Every list has a descending permutation, so the order a run meets always exists |
| `Ranking.SortDescending` | internal/cleanup/cleaner.go:161-164 | Sorting in place leaves a descending permutation |
| `Policies.ApplySucceeded` | internal/cleanup/policies.go:40-69 | A policy that succeeds empties (truncate) or removes (delete) that one file, touches no other, returns the size at its stat, and removes on top of it exactly what was appended between stat and change |
| `Policies.ApplyFailed` | internal/cleanup/policies.go:40-91 | A policy that fails has removed nothing |
| `Policies.ApplySucceedsExactly` | internal/cleanup/policies.go:40-91 | A policy succeeds exactly when the mode is truncate or delete, the kernel answers both calls, and the log is there at the stat |
| `Policies.ApplyTruncate` | internal/cleanup/policies.go:40-50 | Stat then truncate, with appends before each and failure of either, equals the specification |
| `Policies.ApplyDelete` | internal/cleanup/policies.go:59-69 | Stat then remove, with appends before each and failure of either, equals the specification |
| `Policies.ApplyStub` | internal/cleanup/policies.go:78-91 | Rotate and compress fail without changing a file |
| `Policies.ApplyPolicy` | internal/cleanup/policies.go:17-31 | Each mode gets its own policy |
| `LogFiles.TotalWritten` | internal/cleanup/policies.go:40-69 | Appends add exactly their bytes to the total on disk |
| `LogFiles.TotalRemove` | internal/cleanup/policies.go:65-68 | Removing a file takes exactly its size off the total |
| `LogFiles.TotalSet` | internal/cleanup/policies.go:46-49 | Setting the size of one file moves the total by the difference |
| `LogFiles.WrittenAllSize` | internal/cleanup/policies.go:40-69 | A file grows by exactly the appends to its path and never disappears by appending |
| `History.HistoryKeepsBooks` | internal/storage/sqlite.go:151-191 | Over every history of runs and appends: each run row counts its truncated children, keys increase and no child lacks its run |
| `History.HistoryConserves` | internal/cleanup/cleaner.go:189-213 | Over every history: bytes at the end + all reclaimed + all freed unreported = bytes at the start + all appended |
| `History.ProtectedLogsAreSafe` | internal/cleanup/cleaner.go:190-204 | Over every history, a log that each run finds excluded or below the threshold ends with exactly what it held plus everything appended to it |
| `Convergence.RunSettles` | internal/cleanup/cleaner.go:189-213 | An error-free real run without writers leaves every discovered log gone, below the threshold or excluded if and only if the threshold is positive, or the mode is delete, or every discovered log is excluded; and bytes before = bytes after + reclaimed |
| `Convergence.RunOverSettled` | internal/cleanup/cleaner.go:189-213 | A run over settled logs leaves the files as they are and cleans nothing |
| `Convergence.StaysSettled` | internal/cleanup/cleaner.go:189-213 | Every later run of any sequence over settled logs is idle |
| `Convergence.CleaningConverges` | internal/cleanup/cleaner.go:189-213 | In exactly those cases no later run of any sequence changes a file or cleans a log; the other half is `Unsettled.NeverSettles` |
| `Unsettled.NeverSettles` | internal/cleanup/cleaner.go:189-213 | In the remaining case, truncating with a threshold of zero or less and some log not excluded: after an error-free run, every later one without writers over the same logs, with a kernel that refuses nothing, cleans the same logs again, namely all that are not excluded, and none of these runs is idle |
| `Unsettled.SameRunsExist` | internal/cleanup/cleaner.go:95-274 | Such later runs exist in any number, for any distinct logs on disk |
| `Unsettled.CalmRunCleans` | internal/cleanup/cleaner.go:189-213 | With a threshold of zero or less, an error-free run without writers cleans exactly the discovered logs whose names are not excluded |
| `Unsettled.NonPositiveThresholdCleansAll` | internal/cleanup/cleaner.go:189-198 | With a threshold of zero or less, a run the kernel does not hinder cleans every entry that is not excluded, empty or not, whatever is appended meanwhile |
| `Unsettled.FlagsAreEligible` | internal/cleanup/cleaner.go:189-215 | Without truncate errors, whatever the cause, the flagged entries are exactly the eligible ones |
| `Unsettled.TruncateKeepsFiles` | internal/cleanup/policies.go:40-50 | A truncating run without writers removes no file |
| `Convergence.CalmRunMeetsNoError` | internal/cleanup/cleaner.go:127-213 | Distinct paths on disk, no writers and a kernel that refuses nothing are enough for an error-free run |
| `Convergence.QuietRunExists` | internal/cleanup/cleaner.go:95-274 | In any configuration and for any logs on disk there is a run without writers and without stat errors, with any one answer of Docker in the first round of inspects and any one in the second |
| `Convergence.ExactSizeIsTruncated` | internal/cleanup/cleaner.go:189-194 | A log of exactly the threshold size whose name is not excluded is truncated |
| `Convergence.CalmRunExists` | internal/cleanup/cleaner.go:127-213 | In a real mode and for distinct logs such a run meets no error at all, so the convergence theorems apply |
| `Convergence.PanickingRunExists` | internal/docker/insights.go:81-87 | An input on which `Run` panics: with a Docker client, any log whose directory name is shorter than twelve characters, when its inspect calls fail |
| `Convergence.FailedInspectLosesExclusion` | internal/cleanup/cleaner.go:135-145 | An input on which an excluded container loses its protection: any log over the threshold in a run whose inspect call fails is truncated, whichever excluded name its container has |
| `Convergence.CalmEntry` | internal/cleanup/cleaner.go:127-159 | Without writers each entry carries the size on disk and the name its path always resolves to |
| `Convergence.CalmSweepClears` | internal/cleanup/cleaner.go:204-212 | An error-free loop without writers leaves every eligible log empty in truncate mode and gone in delete mode |
| `Tables.RecordBooks` | internal/storage/sqlite.go:151-191 | A transaction, committed or rolled back at any statement, keeps: run row = number of its truncated children, keys increasing, every child parented |
| `Tables.RecordKeyed` | internal/storage/sqlite.go:56-58 | A transaction keeps both key columns strictly increasing and every child row parented |
| `Tables.NewRunBalances` | internal/storage/sqlite.go:163-185 | The new run row counts exactly the truncated rows inserted under its id |
| `Tables.OldRunKeepsBalance` | internal/storage/sqlite.go:163-185 | Rows inserted for a new run never count for an older one |
| `Storage.Store.RecordRun` | internal/storage/sqlite.go:151-191 | When beginning, inserting the run, reading its id, inserting any child or committing fails, no id is returned and the tables are as they were; otherwise the id returned is that of the one run row gained, and one child row per entry is gained with consecutive ids |
| `Storage.Store.GetContainerCleanupCount` | internal/storage/sqlite.go:245-254 | The answer is the number of rows of that name that are at most windowDays times 24 hours old, or the failure of the query; none for a negative window, which makes the date modifier invalid |
| `Storage.Store.GetAggregateStats` | internal/storage/sqlite.go:225-243 | The number of rows of that server, their sums, average and latest time; zeros and no time without rows |
| `Storage.Store.ListRuns` | internal/storage/sqlite.go:201-223 | The newest rows of that server, in descending time, as many as the limit allows; ties in any order |
| `Storage.Store.GetTopContainers` | internal/storage/sqlite.go:281-306 | Join, group by name, descending count, limit: a prefix of a ranking of the exact groups |
| `Storage.Store.CollectNames` | internal/storage/sqlite.go:284-287 | The groups are the names with a joined row in the window, each once |
| `StorageLaws.AggregateCountsTruncations` | internal/storage/sqlite.go:225-243 | With the tables in order, TotalLogsCleaned of a server is the number of truncated child rows joined to that server |
| `StorageLaws.CountsAgreeExactly` | internal/storage/sqlite.go:245-287 | A group count is at most the cleanup count of that name, and equal if and only if no row of that name in the window belongs to a run of another server |
| `StorageLaws.OneServerAgrees` | internal/storage/sqlite.go:245-287 | When all runs share the server, the two queries agree |
| `StorageLaws.WindowsGrow` | internal/storage/sqlite.go:248-286 | Cleanup counts and group counts grow with the window, and a negative window counts nothing |
| `StorageLaws.TopRowsAreExact` | internal/storage/sqlite.go:281-306 | Every returned row carries the number of joined rows of its name in the window, and the sum of their sizes; there are no more rows than the limit |
| `StorageLaws.TopIsSorted` | internal/storage/sqlite.go:287-289 | The list descends by count and has no name twice |
| `StorageLaws.JoinsExactly` | internal/storage/sqlite.go:284-286 | A child row takes part exactly when it is at most windowDays times 24 hours old and its run belongs to the server |
| `StorageLaws.RowAddsItsSize` | internal/storage/sqlite.go:283-287 | One more child row adds its size to the group of its name, if it takes part, and to no other |
| `StorageLaws.NewestRuns` | internal/storage/sqlite.go:201-223 | ListRuns returns rows of that server, newest first, each as often as the table has it, at most as many as the limit; a row left out is no newer than any listed one and the list is then full |
| `StorageLaws.AggregatesAgreeWithList` | internal/storage/sqlite.go:201-243 | The count and the sums of GetAggregateStats are the length and the column totals of the unlimited ListRuns of that server |
| `StorageLaws.TopOmitsNoLarger` | internal/storage/sqlite.go:287-289 | A name with joined rows that is not returned has no larger count than any returned one, and the list is full |
| `StorageLaws.TopCountsSum` | internal/storage/sqlite.go:281-306 | The returned counts sum to at most the joined rows in the window, and to exactly those unless the list has reached its limit |
| `StorageLaws.LogsAreTruncations` | internal/storage/sqlite.go:225-243 | With unique keys, summing run rows and counting joined child rows are the same sum |
| `Recording.RunIsRecorded` | internal/cleanup/cleaner.go:237-264 | A completed run is in the tables as a whole or not at all: one run row with the server, flags, counts, duration, error texts and time of the run, and one child row per entry, in order, under its id and time, entries it did not truncate included |
| `Recording.EventCounts` | internal/storage/sqlite.go:245-254 | One run raises the cleanup count of a name by its entries of that name, if it was committed in the window, and not otherwise |
| `Recording.HistoryCounts` | internal/storage/sqlite.go:245-254 | Over every history, the cleanup count of a name gains exactly the entries of that name in the runs committed in the window: truncated, spared, excluded and dry-run entries alike |
| `Docker.ContainerIdOfLayout` | internal/docker/insights.go:51-55 | On the documented layout root/id/file the extracted id is id |
| `Docker.CollectInsights` | internal/docker/insights.go:66-116 | One insight per path in order: image, image id, status and restart count as inspected, the name without one leading slash, excluded exactly when that name is configured; for a failed inspect the twelve-character name and nothing else; and a panic exactly when a failed inspect meets a shorter id |
| `Docker.CollectById` | internal/docker/insights.go:66-116 | The same for the loop over ids |
| `Docker.InsightsTell` | internal/docker/insights.go:66-116 | The same for the list that the loop is proved against |
| `Docker.TrimSlashTrims` | internal/docker/insights.go:89-89 | One leading slash goes and nothing else |
| `Docker.ContainerIdOfOthers` | internal/docker/insights.go:53-55 | Off the documented layout the id is a dot, for a path without a directory, or the root |
| `Docker.ExcludedMap` | internal/docker/insights.go:66-69 | The map holds true for exactly the configured names |
| `DockerSummary.CollectDockerSummary` | internal/docker/insights.go:119-179 | Images with and without tags, containers running, exited and paused, and volumes, each the number of such elements of its listing, and zero where the listing failed |
| `DockerSummary.UsedExactly` | internal/docker/insights.go:166-170 | A volume counts as used exactly when some container has a mount of type volume with its name |
| `DockerSummary.SummaryAddsUp` | internal/docker/insights.go:131-165 | Tagged + dangling = images listed; running + stopped + paused never exceed the total |
| `DockerSummary.UnusedIsExactly` | internal/docker/insights.go:166-175 | For distinct volumes, the unused figure is the number of listed volumes no container mounts if and only if every mounted volume is listed or every listed one is mounted |
| `Recommendation.Analyze` | internal/reporting/recommendation.go:28-66 | The loop returns, in first-occurrence order, the non-empty names whose query succeeded with a count at or above the trigger |
| `Recommendation.ExpectedIsExact` | internal/reporting/recommendation.go:39-64 | There are strictly increasing positions, one per recommendation, and every flagged position is among them |
| `Recommendation.NamesAreDistinct` | internal/reporting/recommendation.go:40-43 | No name is recommended twice |
| `Recommendation.RecommendedExactly` | internal/reporting/recommendation.go:39-64 | Any name whatsoever is recommended if and only if its query is made, at its first insight, and answered, and its rows in the window, truncated or not, reach the trigger |
| `Recommendation.ListedIsAsked` | internal/reporting/recommendation.go:40-49 | When no query fails, the names asked about are exactly the names of insights, the empty one apart |
| `Recommendation.OftenTruncatedIsRecommended` | internal/reporting/recommendation.go:45-63 | A name whose query is made and answered, with that many truncated rows in the window that bear this very name, is always recommended |
| `RecommendationLaws.RecommendedAsDocumentedExactly` | internal/reporting/recommendation.go:26-63 | For any name: that it is recommended, for every trigger, exactly when rows of that name were truncated that often in the window, holds if and only if its query is made and answered and no row of the name in the window was left untruncated |
| `RecommendationLaws.RunAdvisesAsDocumentedExactly` | internal/cleanup/cleaner.go:220-226 | The same after a completed run with a Docker client, when no query fails: it holds for a non-empty name if and only if some second inspect of the run gives that name and no row of it in the window was left untruncated |
| `RecommendationLaws.TruncatedButNotRecommended` | internal/docker/insights.go:81-87 | The documentation fails the other way too, for every trigger: that many real runs truncate the log of a container and record it under its name, with no row of the name left untruncated and every query answered, and no trigger leads to a recommendation of the name, because the second inspect fails |
| `RecommendationLaws.RunListsExactly` | internal/docker/insights.go:81-114 | The insights of a run bear exactly the names that its second inspects give |
| `RecommendationLaws.TruncatedRowsCount` | internal/cleanup/cleaner.go:243-260 | A run adds to the truncated rows of a name exactly its truncated entries of that name, if it was committed in the window |
| `RecommendationLaws.CountMeansTruncated` | internal/storage/sqlite.go:245-254 | The cleanup count is at least the number of truncated rows of that name in the window, and equal if and only if none of the counted rows was left untruncated |
| `RecommendationLaws.NeverTruncatedIsRecommended` | internal/cleanup/cleaner.go:200-251 | For every trigger and from any tables, that many dry runs of the agent itself lead to a recommendation of the container they list, without adding one truncation |
| `RecommendationLaws.DryRunListsOnce` | internal/cleanup/cleaner.go:200-264 | A dry run over a log changes no file, yet raises the cleanup count of its container by one, and lists it among the insights |
| `RecommendationLaws.SparedRowsCount` | internal/cleanup/cleaner.go:243-260 | A recorded run that truncated nothing adds nothing to the truncated rows |
| `Pipeline.Process.RunPipeline` | cmd/agent/main.go:70-97 | An undisturbed pipeline runs, then counts, then analyses tables that already hold its own rows, whichever queries fail; an error adds one cleanup error and touches no other counter; a panic in the run touches none, one before the counting only the duration gauge, and one after it leaves the run counted |
| `Pipeline.Process.RunNow` | internal/scheduler/scheduler.go:59-67 | The startup run reports failure exactly when the cleaner was busy or discovery failed; so one that took the mutex and did not complete is reported if and only if no short id met a failed second inspect, and one that panics after `Run` is never reported |
| `Telemetry.IntToStr` | internal/telemetry/docker.go:39-59 | The digit buffer never passes its twenty bytes, the in-place reversal is right, and the text is the decimal text for every int64 but the minimum, for which it is a lone minus sign |
| `Telemetry.IntTextReadsBackExactly` | internal/telemetry/docker.go:39-59 | Reading the text back gives the number if and only if it is not the minimum int64, whose text is a lone minus sign |
| `Telemetry.IntTextIsInjective` | internal/telemetry/docker.go:39-59 | Different numbers get different texts, the minimum included |
| `Telemetry.ParseText` | internal/telemetry/docker.go:39-59 | Reading undoes writing for every integer; the text has no leading zero and a minus sign only when negative |
| `Telemetry.TextParse` | internal/telemetry/docker.go:39-59 | Writing undoes reading for every canonical decimal text |
| `Telemetry.WriteDigits` | internal/telemetry/docker.go:48-51 | The loop leaves at most nineteen digits, least significant first |
| `Telemetry.ReverseInPlace` | internal/telemetry/docker.go:55-57 | The two-index loop reverses the prefix in place |
| `Telemetry.FormatBytes` | internal/telemetry/server.go:45-56 | For every uint64 of at least 1024 the loop ends with div = 1024^(exp+1), div <= b < 1024 div, exp within the unit letters, and the multiplication never wraps |
| `Telemetry.UnitIsUnique` | internal/telemetry/server.go:50-55 | At most one unit satisfies that, so it determines what formatBytes must choose |
| `Telemetry.UnitSizes` | internal/telemetry/server.go:50-55 | The six units are K to E, of 1024 bytes to 1152921504606846976 |
| `Telemetry.FreeNeverWraps` | internal/telemetry/server.go:40-43 | The unsigned subtraction shown as free space never wraps: it is the available space, or the total when that is smaller |

## Left out

- Agent.Next: the gauges of `RecordRun` are one step, the collection of all insights is one step, and a stat step includes the inspect call and the snapshot insert for that path; counters, policy stats and policy changes are separate steps.
- Agent.Enabled: cron's contract is assumed, not modelled: no tick after `Stop`, and `Stop` waits for the jobs it started. Nobody but the policies removes or shortens a log.
- Serial.RefusedExactly: the mutex is abstract: `TryLock` succeeds whenever nobody holds it. Go's `TryLock` may also fail when its compare-and-swap loses to a waiter or the mutex is in starvation mode.
- Policies.ApplyDelete: an append after the removal recreates the path. A logger that keeps its descriptor open writes on to the unlinked file instead, so the path does not come back and the space is freed only when the descriptor is closed.
- Cleaner.LogCleaner.Run: the object is used by one caller at a time; overlapping callers are the subject of `Agent` and `Serial`. The returned AllEntries is read from the array at the end of the run, so a caller that later writes through the shared backing array is not captured.
- Storage.Store.RecordRun: all rows of one transaction carry one clock reading; SQLite's per-statement timestamps, date strings and their limits, WAL and pragmas are not modelled.
- Pipeline.Process.RunPipeline: the telemetry collection, the report, mail, Slack and Teams are left out, but for the panics they may end in; a panic between two counters of `RecordRun` is a step of `Agent` only. All count queries of one analysis see the same tables.
- Docker.ContainerIdOfLayout: `filepath.Clean` is not modelled; discovered paths are taken as clean, which is what a walk or a glob of a clean pattern yields. Ids are counted in characters, which for the hexadecimal ids of Docker are bytes.
- RunLaws.RunPanicsExactly: an inspect that is answered is assumed to carry its `Config` and `State`; those are pointers in the Docker client's types, and reading a missing one would panic as well.
- Recommendation.Analyze: the message text is left out.
- Telemetry.FormatBytes: the quotient is kept as a pair; its rendering with one decimal is left out.
- Discovery (`doubleStarGlob`, `filepath.Glob`): the discovered paths are an input, distinct where a theorem says so; hard links and symbolic links between logs are out of scope.
- Floating point: megabyte sums are sums of bytes, so rounding of the accumulated float is not captured.
- Error causes: a cleanup error keeps its phase and path, not the text of the operating system error, and errors_json keeps the list rather than its JSON encoding.
- Insights: creation time, and the growth rate, which `Run` never computes because it passes a nil storage.
- Snapshots: their timestamps and `GetLogSizeHistory`; `parseTimestamp`; `SetInsightLogSize`, which nothing calls.
- The self-monitor's SMTP, notification and Docker failure counters: plain increments with no law of their own.
- HTTP routes, basic authentication, health and JSON handlers, mail, Slack and Teams posting, templates, configuration loading, cron expression parsing, /proc readers and the public address lookup: input and output plumbing.
