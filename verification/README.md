# vmgather: a Dafny model of its exporter and importer

vmgather exports metrics from VictoriaMetrics in batches, under a server that may time out or
refuse, and imports the resulting bundles elsewhere, chunk by chunk and resumably. This project
models the parts that hold algorithms with state and proves what they guarantee on all inputs,
for every behaviour of the server and every interleaving of goroutines:

* **Adaptive export** (`AdaptiveExport`, `AdaptiveEvents`, `AdaptiveSelectors`, `AdaptiveStaging`,
  `AdaptiveBounds`, `AdaptiveRecovery`, `AdaptiveSampling`, `AdaptiveJobSplit`, `ExportExecution`,
  `SampledExports`, `ExportEngine`): the recursive retry machine. The environment (`Env`) is an
  adversary that answers every request, file operation and cancellation check as it likes,
  indexed by a logical clock. `Export` is the machine as a function of its environment; the
  class `ExportEngine.Engine` is the machine as the source has it, methods that change files,
  counters and statistics, each proved equal to that function. Temporary files are entries of a
  map and leave no trace. Selectors have a meaning over rows, given what a query text selects;
  `AdaptiveRecovery` says exactly against which servers the retries succeed.
* **Batches and defaults** (`Batching`, `ExportDefaults`): batch windows, the one-hour chunks of
  the query_range fallback, and the normalisation of a configuration.
* **Export jobs** (`ExportJobs`, `ExportRunner`, `ExportRuns`, `ExportRunCounts`, `ExportStatuses`,
  `ExportRunProperties`, `ExportRunSteps`, `ExportResumes`, `ExportCancels`): the job manager as a
  class with its invariant, whose methods are proved against functions on its state, one run of
  a job through the engine, and the jobs with their goroutines as a state machine in which every
  section under the lock, and every step that touches a staging file, is one step. What the
  counter and the goroutines keep needs only fresh job ids; what the staging files keep needs a
  little more. `RunIsSteps` ties the two together: runJob with ExecuteExport does to manager,
  staging file, archive and history exactly what the steps of its goroutine do.
* **Importer** (`Timestamps`, `ImportLines`, `BundleScanner`, `BundleStream`, `BundleLineEnds`,
  `ImportJobs`, `ImportServer`, `Preflight`): int64 timestamps with wrap-around and truncation,
  one line of a bundle, the line scanner with its offsets, the chunked stream, resumed imports,
  the jobs around them as a state machine, and the preflight that is to predict an import.
* **Label simulation** (`LabelSimulation`, `LabelAgreement`): bitsets packed by the Go code, read
  by the page, against the plain filter of the importer.
* **Obfuscation** (`Obfuscation`, `ObfuscationNumbers`): counters and caches that hand out names.

A bundle is a string of bytes, a staging file a sequence of rows, an instant an integer number
of nanoseconds. JSON decoding and encoding, `net.SplitHostPort` and the fallback hash are
parameters. Error kinds are answers of the environment.

What the code does not guarantee is stated beside what it does, by a concrete run or input and,
where there is one, the exact condition:

* An accepted start keeps the active counter right exactly when its id is not that of a live job
  (`StartCountedIff`), and the end of a run exactly when its job was live, or gone, or the counter
  was 0 (`FinishCountedIff`).
* Dividing a request by job selects what the request selected exactly when no job name is blank and
  a custom export has a query (`DividesCleanlyIff`).
* A resume continues with the first missing batch exactly when not all batches were stored
  (`ResumeContinuesIff`); otherwise the rows are archived twice (`ReplayDuplicatesRows`).
* The exported count of a completed job is the number of archived lines exactly when its last
  run started from nothing (`CompletionAddsUp`).
* A failed window leaves rows behind exactly when the append to its own file tore after everything
  below had succeeded; tears in the temporary files below do no harm (`StagingAllOrNothing`,
  `TornAppendShows`).
* `sampled` is right in every run of a configuration exactly when its range is empty or it does
  not let the engine raise the step and then divide by job into unsampled reads
  (`SampledIsTrueIff`); for every other one there is a run that shows it wrong
  (`SampledWithoutSampledRows`).
* A bundle is imported exactly once, whatever is done with its lines and whatever is rejected,
  exactly when none of its lines, except perhaps the last, ends in a carriage return
  (`ExactlyOnceIff`); otherwise a resume can start inside a line end, and lines can be sent twice
  (`CarriageReturnsDuplicateLines`).
* The preflight counts a line as the import does exactly when the line is predictable, which can
  be told from its timestamps, values and metric (`PredictsIff`): with millisecond timestamps, or
  without a cutoff, only a missing metric can make a difference; timestamps in seconds under a
  cutoff are an example of another (`SecondsAreMispredicted`).
* The page agrees with the importer's filter, for all series and selections, exactly when every
  unprotected name it offers stands at its own place in the preflight's list (`AgreesIff`), which
  trimmed names do (`CleanIsInPlace`). A blank one before others shifts their bits
  (`BlankNameShiftsBits`).
* The normalisation after the retention filter does nothing exactly when there is no cutoff, the
  series does not fit, or the middle recent timestamp is in milliseconds
  (`SecondNormalizationIdleIff`); `FilterMayRescale` is a case in which it rescales. Scaled
  timestamps are exact exactly when nothing overflows (`ScaledExactlyIff`), and overflow can lose
  order (`OverflowLosesOrder`).

Where the code and its comments disagree the model follows the code: the comment on
ObfuscateInstance speaks of cycling through 777.777.1.1 to 777.777.255.255, but the third octet
goes on growing (`OctetsInPoolIff`), which is why names stay distinct.

`dafny verify dfyconfig.toml` checks the project.

## Model

| member | source | states |
|---|---|---|
| Batching.CalculateBatchWindows | internal/application/services/batching.go:21-50 | the loop's windows are those of `BatchWindows` |
| Batching.SelectBatchInterval | internal/application/services/batching.go:52-65 | a configured interval is used, or the nearest one within the limits; otherwise 30 seconds, a minute or five by the length of the range |
| Batching.RecommendedInterval | internal/application/services/batching.go:67-76 | 30 seconds up to 15 minutes, a minute up to 6 hours, else five |
| Batching.RecommendedMetricStepSeconds | internal/application/services/batching.go:79-84 | the step is the recommended batch interval of a non-empty range, and the minimum of any other |
| Batching.CutIsChain | internal/application/services/batching.go:33-49 | cutting a range gives a gap-free chain over it, no window too wide and only the last one short |
| Batching.BatchWindowsTile | internal/application/services/batching.go:21-50 | there is always a batch; without batching, or on an empty range, it is the range itself; the batches of any other range are a chain over it, each but the last exactly as long as the interval |
| Batching.ChainPartitions | internal/application/services/batching.go:21-50 | every instant of the range lies in exactly one window of a chain and no other instant in any |
| Batching.ChunksOfChain | internal/application/services/export_service.go:1018-1097 | cutting each window of a chain into hour chunks gives a chain over the same range, no chunk longer than an hour |
| Batching.ChainAsksForEverySecond | internal/infrastructure/vm/client.go:172-173 | truncating the endpoints of a chain to whole seconds loses no second of its range |
| ExportDefaults.LadderContents | internal/application/services/export_defaults.go:70-95 | the ladder is non-empty, strictly increasing and holds exactly the in-range input steps, or the maximum alone if there is none |
| ExportDefaults.LadderIdempotent | internal/application/services/export_defaults.go:70-95 | normalising a ladder again changes nothing |
| ExportDefaults.SortInPlace | internal/application/services/export_defaults.go:89-93 | the in-place insertion sort leaves the array sorted with the same elements |
| ExportDefaults.NormalizeStepLadder | internal/application/services/export_defaults.go:70-95 | the method with its set, slice and sort computes `Ladder` |
| ExportDefaults.DefaultsAreNormalized | internal/application/services/export_defaults.go:10-68 | defaults leave ladder, maximum step, minimum window and split depth in their ranges, whatever was configured |
| ExportDefaults.DefaultsIdempotent | internal/application/services/export_defaults.go:10-68 | applying the defaults twice is applying them once |
| ExportDefaults.ValidSettingsAreKept | internal/application/services/export_defaults.go:10-68 | settings in their ranges stay as they are, safety features nobody switched on stay off once any safety setting is made, and a missing step is the lowest of the ladder under autopilot and else the recommended one |
| ExportDefaults.NothingBecomes | internal/application/services/export_defaults.go:10-68 | what the defaults make of a configuration without settings |
| ExportDefaults.DefaultsKeepBatchWindows | internal/application/services/export_service.go:266-272 | the service-level defaults do not change the batch windows the job manager counted |
| ExportDefaults.ConfigRef.ApplyExportDefaults | internal/application/services/export_defaults.go:10-68 | rewriting the configuration field by field gives `WithDefaults` of its old value |
| ExportDefaults.ConfigRef.ApplyServiceDefaults | internal/application/services/export_service.go:266-272 | rewriting the configuration at the service gives `ServiceDefaults` of its old value |
| AdaptiveExport.SplitTimeRange | internal/application/services/export_service.go:925-940 | the halves meet, cover the window, are non-empty and not shorter than half the minimum window |
| AdaptiveExport.RetriesDescend | internal/application/services/export_service.go:342-453 | every retry and every child of a division decreases (several jobs, not yet query_range, ladder steps above, depth left) lexicographically, so the engine terminates for every server although depth and query_range are reset |
| AdaptiveSelectors.NewAttemptSelects | internal/application/services/export_service.go:723-745 | the selector of a new attempt matches exactly what the configuration asks for: the query's rows of the configured jobs; only a selector query is restricted to jobs |
| AdaptiveSelectors.UniqueStringsMeans | internal/application/services/export_service.go:909-923 | exactly the non-empty values are kept, each once |
| AdaptiveSelectors.UniqueKeepsOrder | internal/application/services/export_service.go:909-923 | the values keep the order of their first occurrences |
| AdaptiveSelectors.ChildrenSelect | internal/application/services/export_service.go:747-775 | a row is selected by exactly one child if its job is among the divided ones and the query selects it, and else by none |
| AdaptiveSelectors.DividesCleanlyIff | internal/application/services/export_service.go:747-775 | whatever the query selects, the children select each wanted row once and no other, exactly when no job name is blank and a custom export has a query |
| AdaptiveStaging.StagingAllOrNothing | internal/application/services/export_service.go:310-327 | at every nesting depth success adds exactly the rows of the kept attempts in order and counts them; failure counts nothing, and adds something exactly when the append to the given file itself tore after all below had succeeded, and then a prefix of those rows |
| AdaptiveStaging.DividedAllOrNothing | internal/application/services/export_service.go:461-493 | the same for a divided attempt: whatever tears inside its split file, the given file is untouched unless the split file's own append tears |
| AdaptiveStaging.DivisionKeepsRequest | internal/application/services/export_service.go:365-425 | the selectors and windows of the children of a division by job or time select every row at every instant exactly as often as the parent's |
| AdaptiveStaging.SuccessCoversOnce | internal/application/services/export_service.go:290-459 | however a successful export was retried, each row the first selector matches is selected, at each instant of the window, by exactly one kept attempt, and no other row by any |
| AdaptiveStaging.SuccessIsChain | internal/application/services/export_service.go:392-425 | without division by job the kept attempts' windows are a gap-free chain over the requested window |
| AdaptiveBounds.HalvesSharePieces | internal/application/services/export_service.go:925-940 | halving shares a window's pieces out: the bounds of the halves add up to at most the bound of the whole |
| AdaptiveBounds.PlanFitsBudget | internal/application/services/export_service.go:342-453 | whatever follows a failed attempt fits into what its budget leaves |
| AdaptiveBounds.AttemptsWithinBudget | internal/application/services/export_service.go:290-459 | no server can make the engine exceed the budget: (r + 2) * max(1, 2d / m) - 1 attempts for a query_range attempt with at most one job |
| AdaptiveRecovery.GivesUpIff | internal/application/services/export_service.go:342-459 | after a failed attempt the engine gives up with its error exactly when there is nothing to try: for a timeout, on the export API, or on the top step with a window that cannot be halved; else it makes another attempt |
| AdaptiveRecovery.FailsOnlyStuck | internal/application/services/export_service.go:290-459 | where appends and split files work, an export fails only if its last attempt got stuck in that way |
| AdaptiveRecovery.PlanIsRecorded | internal/application/services/export_service.go:342-453 | a decision is recorded with the window and error it was made on, and with the step that is halved at or raised to |
| AdaptiveRecovery.RangedExportsIff | internal/application/services/export_service.go:392-453 | against a server with a time limit a query_range attempt succeeds exactly when the longest piece it can be halved to, over all steps of the ladder, is quick enough at the top step |
| AdaptiveRecovery.WindowExportsIff | internal/application/services/export_service.go:274-459 | for every configuration, job list and window, with or without an export route, with or without too many series for several jobs, and for every time limit: exactly when the window is exported |
| AdaptiveRecovery.RequestServerBehaves | internal/application/services/export_service.go:1018-1097 | a server that decides on each request by chunk and step is such a server, with the length of the longest chunk as the measure |
| AdaptiveSampling.RecordAllMeans | internal/application/services/export_service.go:831-859 | the statistics are the largest step of all kept attempts and decisions, and whether any was sampled |
| AdaptiveSampling.SuccessIsWitnessed | internal/application/services/export_service.go:290-459 | in a successful export every kept attempt's step is between the first one and the maximum, and no decision named a coarser step than some kept attempt ran at |
| AdaptiveSampling.RecordedStepIsLargest | internal/application/services/export_service.go:882-891 | the recorded step is the largest of any kept attempt and within the maximum; sampled exactly if some kept attempt used query_range or some step was raised |
| AdaptiveJobSplit.ChildrenConserve | internal/application/services/export_service.go:747-775 | the children of a division by job together add the multiset of rows that the query selects of all their jobs |
| AdaptiveJobSplit.JobSplitConservesRows | internal/application/services/export_service.go:365-391 | in every mode, with no blank job name and no blank custom query, an export that was only divided by job adds the multiset of rows the undivided request returns, through the export API or through query_range |
| ExportExecution.ReportsInOrder | internal/application/services/export_service.go:120-155 | every stored batch is reported once and in order; on success none is missing |
| ExportExecution.ReportsMatchStaging | internal/application/services/export_service.go:120-155 | on success the reported metrics, the count and the rows gained agree; on failure the reported metrics are the rows gained exactly if the loop did not stop in a torn append to the staging file |
| ExportExecution.ExportCoversOnce | internal/application/services/export_service.go:120-155 | over all batches of a successful export every wanted row is selected, at every instant from its first batch (the start of the range unless it was resumed) to the end of the range, by exactly one kept attempt, and nothing else is |
| ExportExecution.ExportRecordsLargestStep | internal/application/services/export_service.go:86-212 | the archive's recorded step over all batches is the largest of any kept attempt, and an unsampled export took every row raw |
| ExportExecution.ExportRecordsDecisions | internal/application/services/export_service.go:882-891 | the metadata names the mode and lists every decision of the export in order |
| ExportExecution.StaysOnQueryRange | internal/application/services/export_service.go:342-453 | an attempt that is not divided by job into children on the export API never leaves query_range |
| ExportExecution.MetricsQLRequestsAreChain | internal/application/services/export_service.go:1018-1097 | the requests behind a successful MetricsQL export, chunks in halved windows in batches, are one gap-free chain from its first batch (the start of the range unless it was resumed) to the end of the range, each at most an hour, asking for every whole second |
| SampledExports.RaisedStaysRanged | internal/application/services/export_service.go:342-453 | unless an attempt can be divided by job into unsampled reads, a raised step in a successful export is followed by a kept query_range read |
| SampledExports.AdversaryRaises | internal/application/services/export_service.go:392-453 | against one server, every divisible attempt halves its window as often as it may, raises the step, divides by job and succeeds with unsampled reads only |
| SampledExports.SampledHoldsOnEmptyRange | internal/application/services/export_service.go:1018-1024 | on an empty range query_range asks nothing and is not raised, so sampled is right |
| SampledExports.SampledWithoutSampledRows | internal/application/services/export_service.go:831-859 | for every configuration with a non-empty range that may raise the step and then divide, a whole export recorded as sampled although every row was read unsampled |
| SampledExports.SampledIsTrueIff | internal/application/services/export_service.go:882-891 | sampled says in every run whether some row came from query_range exactly if the range is empty or the configuration may not raise the step and then divide into unsampled reads |
| ExportEngine.CollectUnique | internal/application/services/export_service.go:909-923 | the loop with its set computes `UniqueStrings` |
| ExportEngine.FindNextStep | internal/application/services/export_service.go:819-829 | the search computes `NextAutopilotStep` |
| ExportEngine.BuildJobChildren | internal/application/services/export_service.go:382-390 | the loop over the jobs builds the children of the specification |
| ExportEngine.ChoosePlan | internal/application/services/export_service.go:342-453 | the switch takes the decision of `PlanFor` |
| ExportEngine.Engine.StreamChunks | internal/application/services/export_service.go:1018-1097 | the chunk loop delivers the rows of all chunks in order, up to the first that fails, and changes no other file |
| ExportEngine.Engine.FetchAndProcessAttempt | internal/application/services/export_service.go:495-534 | an attempt writes what it fetched to the attempt file and counts it |
| ExportEngine.Engine.AppendAndRemove | internal/application/services/export_service.go:536-556 | an append adds the source's rows to the destination, or a part of them when it tears, and the source is gone |
| ExportEngine.Engine.ExportWindowAdaptive | internal/application/services/export_service.go:290-459 | the recursive method changes only the given file, by exactly what `Export` says, leaves no temporary file, and posts the same events, retries and statistics |
| ExportEngine.Engine.RecoverFrom | internal/application/services/export_service.go:342-459 | what follows a failed attempt, likewise |
| ExportEngine.Engine.RunSplitAttemptsAtomically | internal/application/services/export_service.go:461-493 | a division changes only the given file, as `ExportDivided` says, and removes its split file on every path |
| ExportEngine.Engine.RunChildren | internal/application/services/export_service.go:477-487 | the loop over the children fills the split file as `ExportEach` says |
| ExportEngine.Engine.ProcessBatches | internal/application/services/export_service.go:120-155 | the batch loop stores and reports what `RunBatches` says |
| ExportEngine.Engine.ExecuteExport | internal/application/services/export_service.go:86-212 | a whole export leaves staging file, archive, statistics and reports as `Execute` says and touches no other file |
| ExportJobs.CleanupKeepsLive | internal/server/export_jobs.go:401-409 | cleaning up never removes a live job nor changes one it keeps |
| ExportJobs.StartCountedIff | internal/server/export_jobs.go:90-133 | an accepted start keeps the active counter equal to the number of live jobs exactly when its id is not live already |
| ExportJobs.ResumeCounted | internal/server/export_jobs.go:145-188 | a resume keeps the active counter right and within the limit |
| ExportJobs.FinishCounted | internal/server/export_jobs.go:354-359 | ending a live job decrements a positive counter and keeps it right |
| ExportJobs.FinishCountedIff | internal/server/export_jobs.go:354-359 | ending a job keeps the counter right exactly if it was live, or gone, or the counter was 0 |
| ExportJobs.MarkRunningCountedIff | internal/server/export_jobs.go:221-231 | marking a job as running keeps the counter right exactly if it was live or gone |
| ExportJobs.CancelCounted | internal/server/export_jobs.go:385-399 | a cancel is accepted exactly for a live job and ends no life |
| ExportJobs.UpdateMeans | internal/server/export_jobs.go:274-303 | an update adds its lines to what earlier runs stored and never takes the completed batches back |
| ExportJobs.ExportJobManager.StartJob | internal/server/export_jobs.go:90-133 | an accepted start makes its job live and keeps the invariant exactly if it was not; a refused one finds the counter at the limit |
| ExportJobs.ExportJobManager.ResumeJob | internal/server/export_jobs.go:145-188 | keeps the invariant; an accepted resume makes a failed or cancelled job live, which was not |
| ExportJobs.ExportJobManager.CancelJob | internal/server/export_jobs.go:385-399 | keeps the invariant and the set of live jobs, and is accepted exactly for one of them |
| ExportJobs.ExportJobManager.MarkCompleted | internal/server/export_jobs.go:253-272 | of a live job: ends its life and no other, and decrements a positive counter; the invariant is kept exactly as `FinishCountedIff` says |
| ExportJobs.ExportJobManager.MarkFailed | internal/server/export_jobs.go:233-251 | of a live job: ends its life and no other, and decrements a positive counter; the invariant is kept exactly as `FinishCountedIff` says |
| ExportJobs.ExportJobManager.MarkCanceled | internal/server/export_jobs.go:361-383 | of a live job: ends its life and no other, and decrements a positive counter; the invariant is kept exactly as `FinishCountedIff` says |
| ExportJobs.ExportJobManager.UpdateBatch | internal/server/export_jobs.go:274-325 | advances completed batches and metrics as `Updated`, keeping the invariant and the live jobs |
| ExportJobs.ExportJobManager.CleanupLocked | internal/server/export_jobs.go:401-409 | the loop deletes exactly the expired jobs |
| ExportRunner.RunJob | internal/server/export_jobs.go:190-219 | a run does with the staging file what ExecuteExport does, hands every report to the manager, ends the life of its job and of no other, and is the run of the job's goroutine in every state of the state machine it can begin in |
| ExportRunCounts.StepKeepsCount | internal/server/export_jobs.go:119-219 | with a fresh id every step, torn appends and resumes of fully stored jobs included, keeps counter and goroutines right |
| ExportRunCounts.CountsRunOneEach | internal/server/export_jobs.go:119-184 | the counting invariant makes live jobs and goroutines correspond one to one |
| ExportRunCounts.OneRunPerLiveJob | internal/server/export_jobs.go:119-184 | with fresh job ids, under every interleaving, the active counter is the number of live jobs and within the limit; each live job has exactly one goroutine and no other job has any |
| ExportRunCounts.GuardNeverDecides | internal/server/export_jobs.go:354-359 | with fresh job ids, wherever a goroutine can end the counter is positive, goes down by one, and its job is no longer live |
| ExportRunCounts.LiveJobsStay | internal/server/export_jobs.go:401-409 | no step removes a live job, and only the end of its own goroutine ends its life |
| ExportRunCounts.KeptForRetention | internal/server/export_jobs.go:401-409 | a job that has ended stays until it ended longer ago than the retention, and the next start removes it then |
| ExportRunCounts.ResumableIff | internal/server/export_jobs.go:145-170 | a job can be resumed exactly when its goroutine has ended without completing it and fewer jobs than the limit are live |
| ExportStatuses.StatusIsRight | internal/server/export_jobs.go:90-383 | over every interleaving a job is pending until its goroutine marks it, has an end time exactly when it is not live, a result exactly when it is completed, and shows its number of batches |
| ExportStatuses.EndIsShown | internal/server/export_jobs.go:233-272 | a run that ends leaves its job completed, cancelled or failed, as it went |
| ExportRuns.EventKeeps | internal/server/export_jobs.go:190-219 | every step of every interleaving keeps the invariant between manager, goroutines, staging files, archives and history |
| ExportRuns.TraceKeeps | internal/server/export_jobs.go:145-219 | the invariant holds after every run with fresh job ids, no resume of a job with all batches stored, and no torn append |
| ExportRunProperties.InvStages | internal/server/export_jobs.go:274-303 | under the invariant, with no batch in flight, the staging file is the output of the completed batches in order, each once |
| ExportRunProperties.InvArchives | internal/server/export_jobs.go:253-272 | under the invariant a completed job's archive holds every batch once and the counts add up |
| ExportRunProperties.StagedExactlyOnce | internal/server/export_jobs.go:274-303 | over any starts, cancels, failures and resumes, with no batch in flight the staging file is the output of batches 0 to completedBatches - 1 in order, each once, and metricsProcessed is its line count |
| ExportRunProperties.CompletionAddsUp | internal/server/export_jobs.go:253-272 | a completed job's archive holds every batch once; baseMetrics plus the exported count is the number of archived lines, and the exported count alone is exactly if nothing was stored before |
| ExportRunProperties.ResumeContinuesIff | internal/application/services/export_service.go:103-123 | a resumed job keeps its file and continues with the first missing batch exactly when one is missing; else it starts at batch 0 |
| ExportRunProperties.TornAppendShows | internal/application/services/export_service.go:536-556 | a window that fails in the engine leaves the staging file as the reported batches made it exactly if the append to that very file did not tear |
| ExportRunProperties.ReplayDuplicatesRows | internal/application/services/export_service.go:120-123 | a run in which a job resumed with all batches stored archives its rows twice |
| ExportRunSteps.EngineDrivesRun | internal/application/services/export_service.go:120-155 | the steps of a live job's goroutine, up to a cancel, do exactly what the batch loop does: batch k is reported with the rows the engine adds for window k, the manager gets the same reports, and nothing else changes |
| ExportRunSteps.ExportDrivesRun | internal/application/services/export_service.go:86-212 | opening the staging file, the batches and the archive of ExecuteExport are those steps of the goroutine, with the same staging file, archive and result |
| ExportRunSteps.RunIsSteps | internal/server/export_jobs.go:190-219 | a whole runJob, started or resumed, leaves manager, goroutines, staging file, archive and history as the steps of its goroutine do |
| ExportResumes.ExecuteArchives | internal/application/services/export_service.go:86-221 | a success archives the rows a resumed export found, followed by the rows of the kept attempts, and counts the latter; until then the staging file begins with the rows found; an export that is not resumed starts from nothing |
| ExportResumes.ResumesAt | internal/application/services/export_service.go:117-123 | an export resumed at batch k begins with window k, and any other with the first |
| ExportResumes.RunReportsMissing | internal/server/export_jobs.go:190-202 | a run reports the first batch its job has not stored and those after it in order, and all of them if it succeeds |
| ExportResumes.RunContinues | internal/server/export_jobs.go:190-219 | a whole run whose own append does not tear keeps the invariant of all jobs: together with what earlier runs stored every batch is staged once, and archived once if the run succeeds |
| ExportResumes.RunIsShown | internal/server/export_jobs.go:207-218 | the job is then completed with the exported count, cancelled or failed, as ExecuteExport went |
| ExportCancels.HaltedStep | internal/application/services/export_service.go:125-131 | no step but a resume starts anything for a job whose context is cancelled, or lets it begin another batch |
| ExportCancels.CancelStopsJob | internal/server/export_jobs.go:385-399 | after a cancel of a live job, under every interleaving and until it is resumed, it stores at most the one batch whose context check had already passed |
| Timestamps.NormalizeTimestamps | internal/importer/server/server.go:1609-1637 | the loop scales every timestamp by the unit of the middle one, in int64 |
| Timestamps.FilterTimestampsAndValues | internal/importer/server/server.go:1658-1677 | the loop keeps what `FilterSpec` keeps |
| Timestamps.ScaledIsMilliseconds | internal/importer/server/server.go:1639-1656 | a timestamp scaled by its own unit is classed as milliseconds |
| Timestamps.NormalizeIdempotent | internal/importer/server/server.go:1609-1637 | normalising twice is normalising once, overflow or not |
| Timestamps.NormalizeKeepsOrder | internal/importer/server/server.go:1609-1637 | length and order survive when nothing overflows |
| Timestamps.ScaledExactlyIff | internal/importer/server/server.go:1617-1621 | in a series of seconds every timestamp becomes its exact multiple exactly when nothing overflows |
| Timestamps.OverflowLosesOrder | internal/importer/server/server.go:1617-1621 | a sorted series whose scaling overflows and loses its order |
| Timestamps.FilterKeepsExactlyRecent | internal/importer/server/server.go:1658-1677 | kept and dropped add up; without a cutoff all is kept, a series that does not match in number is dropped whole, and of any other exactly the pairs at or above the cutoff are kept, in order |
| Timestamps.MillisecondsPassUnchanged | internal/importer/server/server.go:1490-1509 | millisecond timestamps pass both normalisations unchanged |
| Timestamps.NormalizeIdleIff | internal/importer/server/server.go:1609-1637 | normalising does nothing exactly to a series whose middle timestamp is in milliseconds |
| Timestamps.SecondNormalizationIdleIff | internal/importer/server/server.go:1490-1509 | the normalisation after the filter does nothing exactly if there is no cutoff, the series does not match in number, or the middle of the normalised timestamps at or above the cutoff is in milliseconds |
| Timestamps.FilterMayRescale | internal/importer/server/server.go:1490-1509 | a series of millisecond timestamps that the filter makes the second normalisation rescale |
| Timestamps.RecognisedIff | internal/importer/server/server.go:1639-1656 | an instant after 1970 is recognised in all four units exactly if it is from September 2001 or later; the limit of each unit |
| Timestamps.DatesAgree | internal/importer/server/server.go:1609-1637 | a recognised date becomes the same milliseconds from every unit, to the second from seconds |
| ImportLines.FilterMetric | internal/importer/server/server.go:385-401 | the loop keeps protected labels and those not dropped |
| ImportLines.NormalizeValues | internal/importer/server/server.go:1568-1607 | all values, or none if one is unusable |
| ImportLines.DecodeAndFilter | internal/importer/server/server.go:1471-1515 | the steps on one line have the effect `ImportLine` |
| ImportLines.SentOrSkipped | internal/importer/server/server.go:1471-1520 | a line is sent or counted as skipped, never both or neither; a sent line has the samples that were not dropped |
| ImportLines.SentCarriesRecent | internal/importer/server/server.go:1477-1520 | a sent line carries the labels not dropped and exactly the samples at or above the cutoff, in order, each moved forward by the shift unless that overflows; a line is sent exactly when values and timestamps match in number and there are such samples, all finite |
| ImportLines.ShiftTimestamps | internal/importer/server/server.go:1510-1514 | the loop shifts every timestamp |
| ImportLines.ShiftedIsMoved | internal/importer/server/server.go:1510-1514 | shifting adds the shift, exactly unless it overflows; a shift of 0 changes nothing |
| ImportLines.LabelsAreCounted | internal/importer/server/server.go:1477-1486 | a decoded line is counted with the labels that are kept, and over the limit exactly if there is one and it has more, then with all its samples |
| BundleScanner.ClaimLagsByStripped | internal/importer/server/server.go:1471-1473 | the importer's offset after a line is behind the true one by the carriage returns stripped so far |
| BundleScanner.OffsetExactIff | internal/importer/server/server.go:1471-1473 | it is the start of the next line exactly when none was stripped |
| BundleScanner.ResumeFindsRest | internal/importer/server/server.go:1387-1391 | when none of the lines before it ends in a carriage return, scanning from the importer's offset gives exactly the lines that follow, and the offset is a line boundary |
| BundleScanner.TooLongIff | internal/importer/server/server.go:1387-1391 | the scanner stops at a line that is too long exactly if there are 16 MiB without a line feed |
| BundleStream.BundleImport.CommitChunk | internal/importer/server/server.go:1413-1469 | posts the chunk, and only if accepted moves its bytes, samples and end offset to the totals |
| BundleStream.BundleImport.ProcessLine | internal/importer/server/server.go:1517-1546 | adds a line's effect to the chunk and commits a full one |
| BundleStream.BundleImport.StreamImport | internal/importer/server/server.go:1356-1566 | the scanning loop does what `Import` says, for every remote and also when a line is too long |
| BundleStream.ImportSendsPrefix | internal/importer/server/server.go:1393-1553 | whatever is rejected, the accepted bodies are the encoded lines of a prefix in order, each once; bytes, samples and saved offset are those of that prefix; a success counts every line |
| BundleStream.ImportDone | internal/importer/server/server.go:1546-1553 | a run that succeeds has sent everything from its start on |
| BundleStream.ImportMoves | internal/importer/server/server.go:1413-1469 | when no line from its start on, except perhaps the last, ends in a carriage return, a run that succeeds sends all that is wanted; one that fails moves exactly what it sends from what is wanted to what the remote has, to a line boundary |
| BundleStream.ResumedNotBack | internal/importer/server/server.go:1264-1278 | whatever the line ends and whatever is rejected, no resumed run takes the saved offset back |
| BundleStream.ResumedExactlyOnce | internal/importer/server/server.go:1264-1278 | for a bundle no line of which, except perhaps the last, ends in a carriage return, across any number of rejected posts and resumes, what was accepted plus what a resume would send is the encoded bundle; after success all of it was accepted, each line once |
| BundleStream.ChunksAreSized | internal/importer/server/server.go:1541-1553 | no accepted chunk is longer than the limit by more than a line, and every one but perhaps the last is as long as the limit |
| BundleLineEnds.ExactlyOnceIff | internal/importer/server/server.go:1393-1553 | that holds for all line handling, chunk sizes and rejections exactly for the bundles no scanned line of which, except the last one when nothing follows it, ends in a carriage return |
| BundleLineEnds.SavedOffsetExactIff | internal/importer/server/server.go:1413-1469 | the offset a failing run saves is a line start exactly when no line it sent ended in a carriage return |
| BundleLineEnds.CarriageReturnsDuplicateLines | internal/importer/server/server.go:1393-1473 | a bundle of four lines with carriage returns of which the remote gets five |
| Preflight.AnalyzeBundle | internal/importer/server/server.go:880-996 | the preflight loop computes `Analyze`, with sample limit and series cap |
| Preflight.AnalyzeOne | internal/importer/server/server.go:918-980 | the steps on one line have the effect `AnalyzeLine` |
| Preflight.CountLabelNames | internal/importer/server/server.go:925-929 | the loop adds one to the count of every label of the line |
| Preflight.PredictsIff | internal/importer/server/server.go:910-980 | the preflight counts a line as the import does exactly when as many timestamps pass the filter as they are as normalised, and both leave something to send or neither, a missing metric counting as nothing |
| Preflight.PredictableWithoutCutoff | internal/importer/server/server.go:1658-1661 | without a cutoff, in whatever unit, only a line sent without a metric is not predicted |
| Preflight.PredictableFinite | internal/importer/server/server.go:943-950 | with a metric, finite values and a cutoff a line is predicted exactly when as many raw as normalised timestamps are recent |
| Preflight.PredictableMilliseconds | internal/importer/server/server.go:943-950 | with millisecond timestamps only a line sent without a metric is not predicted |
| Preflight.MillisecondsAreRegular | internal/importer/server/server.go:910-980 | bundles whose decoding lines carry metrics and millisecond timestamps are regular |
| Preflight.PreflightPredictsImport | internal/importer/server/server.go:910-980 | a full preflight of a bundle of predictable lines agrees with a successful import on samples, dropped samples, skipped and decoded lines, largest label count, and lines and samples over the label limit |
| Preflight.LabelCountsMean | internal/importer/server/server.go:925-929 | a label's count is the number of lines that have it |
| Preflight.PreviewIsSample | internal/importer/server/server.go:909-916 | a preflight reads as many lines as it may, or all, and says exactly when it left some out |
| Preflight.SeriesIsLine | internal/importer/server/server.go:920-973 | a recorded series has all labels of its line, dropped ones included, and the samples that pass the filter |
| Preflight.FirstSeriesAreRecorded | internal/importer/server/server.go:967-973 | the first 5000 series are recorded in order, and it is said exactly if there are more |
| Preflight.SecondsAreMispredicted | internal/importer/server/server.go:943-950 | a line in seconds that the preflight drops and the import sends |
| Preflight.PreviewIsWellRecorded | internal/importer/server/server.go:967-973 | the preflight of a bundle records at most 5000 series, each with samples and only counted labels |
| ImportJobs.StepKeeps | internal/importer/server/server.go:1197-1303 | every step of every interleaving keeps the invariant between jobs, goroutines, files and what was sent |
| ImportJobs.InvIsSafe | internal/importer/server/server.go:653-678 | the invariant implies what the next row says of every run |
| ImportJobs.ResumeReadyIsSafe | internal/importer/server/server.go:653-678 | a job has at most one goroutine; one that can be resumed has none, has failed, and its bundle is still there |
| ImportJobs.OffsetNeverDrops | internal/importer/server/server.go:1264-1302 | no step takes a resume offset back before the job has completed |
| ImportJobs.ImportedExactlyOnce | internal/importer/server/server.go:1197-1303 | over every interleaving of uploads, resumes and rejected posts, for a bundle no line of which, except perhaps the last, ends in a carriage return, what the remote has of a job plus what a resume would send is its encoded bundle; of a completed job it has exactly that |
| ImportServer.Server.HandleUpload | internal/importer/server/server.go:684-741 | a new job gets its one goroutine, at offset 0 of a file from which its bundle can be read if at all; the invariant holds and no other job is touched |
| ImportServer.Server.HandleResume | internal/importer/server/server.go:642-682 | accepts exactly a job that is ready, which has no goroutine and whose bundle is there, and starts one at the saved offset; the invariant holds |
| ImportServer.Server.BeginImport | internal/importer/server/server.go:1205-1215 | the job runs, its offset stays where it was, and the invariant holds |
| ImportServer.Server.PrepareImport | internal/importer/server/server.go:1217-1231 | the goroutine goes on with the metrics file of the bundle, or the job has failed and cannot be resumed; the offset stays and the invariant holds |
| ImportServer.Server.StreamAndFinish | internal/importer/server/server.go:1262-1302 | the job completes or can be resumed, no job's offset goes back, and the invariant holds |
| ImportServer.Server.LeaveImport | internal/importer/server/server.go:1198-1203 | the deferred removals take no file made for another job and keep the invariant |
| ImportServer.Server.RunImportJob | internal/importer/server/server.go:1197-1303 | a whole run keeps the invariant, ends its goroutine, takes the job's offset back only by completing it, and leaves no file of its own unless the job can be resumed |
| LabelSimulation.MaskSetsOneBit | internal/importer/server/server.go:1029-1031 | setting a bit of a byte sets that bit and no other |
| LabelSimulation.PositionIsLast | internal/importer/server/static/app.js:298-304 | a name that is offered twice stands for its last place |
| LabelSimulation.EncodeSeriesLabelBitsets | internal/importer/server/server.go:1012-1036 | every series has a bitset in which a bit is set exactly if the universe's label at that place is one of the series' |
| LabelSimulation.BuildLabelSimulation | internal/importer/server/static/app.js:256-296 | the loops build `SimulationOf`, with trimmed names and padded counts |
| LabelSimulation.EvaluateDropImpact | internal/importer/server/static/app.js:298-328 | the loops over series and selected labels compute `ImpactOf` |
| LabelAgreement.FilterKeeps | internal/importer/server/server.go:385-401 | the plain filter keeps the labels the simulation's reference keeps |
| LabelAgreement.CleanIsInPlace | internal/importer/server/static/app.js:256-258 | names that are trimmed and not blank are offered as they are and all stand at their own place |
| LabelAgreement.AgreesIff | internal/importer/server/static/app.js:256-318 | the page's over-limit series, samples, maximum and excess are those of filtering, for all series, bitsets, selections and limits, exactly when every unprotected name it offers stands at its own place in the preflight's list |
| LabelAgreement.OutOfPlaceDisagrees | internal/importer/server/static/app.js:256-318 | for any offered name that is out of place, one recorded series on which the page is wrong when that name is dropped |
| LabelAgreement.SeriesAgrees | internal/importer/server/static/app.js:311-318 | the label count after a drop, from the bits, is the number of labels the filter keeps |
| LabelAgreement.SimulationAgreesWithFilter | internal/importer/server/static/app.js:298-328 | with all offered names in place and no protected label selected, the page's over-limit series, samples, maximum and excess are those of filtering every recorded series |
| LabelAgreement.PreviewIsRecorded | internal/importer/server/server.go:988-994 | the preflight's label names cover the labels of its recorded series |
| LabelAgreement.BlankSimulation | internal/importer/server/static/app.js:256-258 | a blank name is left out of the page's universe but not of the bitsets |
| LabelAgreement.BlankNameShiftsBits | internal/importer/server/static/app.js:256-258 | a blank name before another one makes the page miss a dropped label |
| LabelAgreement.ImpactMeans | internal/importer/server/static/app.js:306-328 | the series counted are those with more labels left than the limit; the largest count is one that is left and no smaller than any; the excess is how far it is over the limit |
| LabelAgreement.FewerDropsAreNotEnough | internal/importer/server/static/app.js:306-364 | dropping fewer further labels than the largest excess leaves a series over the limit |
| LabelAgreement.ShownDropsAreNeeded | internal/importer/server/static/app.js:306-364 | minAdditionalDrops as the page shows it is a true lower bound: fewer further labels leave a recorded series over the limit |
| LabelAgreement.ShowImpact | internal/importer/server/server.go:967-994 | from a bundle through preflight, bitsets and simulation the page shows what filtering every recorded series gives |
| Obfuscation.DecimalInjective | internal/infrastructure/obfuscation/obfuscator.go:59-80 | different counters are written differently |
| Obfuscation.InstanceNamesDiffer | internal/infrastructure/obfuscation/obfuscator.go:53-62 | different counters give different addresses, whatever the ports |
| Obfuscation.JobNamesDiffer | internal/infrastructure/obfuscation/obfuscator.go:79-81 | a job name determines component and counter, even if components hold underscores or digits |
| Obfuscation.LabelNamesDiffer | internal/infrastructure/obfuscation/obfuscator.go:103-105 | a label value's name determines label and counter, even if labels hold dashes or digits |
| Obfuscation.OctetsInPoolIff | internal/infrastructure/obfuscation/obfuscator.go:53-59 | the address is in the documented pool exactly for the first 255 * 255 instances |
| Obfuscation.Obfuscator.ObfuscateInstance | internal/infrastructure/obfuscation/obfuscator.go:36-66 | keeps the names distinct and every name given before, and returns the one `NameInstance` gives |
| Obfuscation.Obfuscator.ObfuscateJob | internal/infrastructure/obfuscation/obfuscator.go:70-85 | keeps the names distinct and every name given before, and returns the one `NameJob` gives |
| Obfuscation.Obfuscator.ObfuscateCustomLabel | internal/infrastructure/obfuscation/obfuscator.go:89-109 | keeps the names distinct and every name given before, and returns the one `NameValue` gives |
| Obfuscation.CallKeeps | internal/infrastructure/obfuscation/obfuscator.go:36-109 | every call keeps the names issued, distinct and below their counters |
| Obfuscation.NamesAreOneToOne | internal/infrastructure/obfuscation/obfuscator.go:36-109 | over any calls distinct jobs and distinct (label, value) pairs have distinct names; two instances share one exactly if both fell back on the hash and it collides |
| Obfuscation.NamesAreStable | internal/infrastructure/obfuscation/obfuscator.go:36-109 | a name given once is given again after any further calls, for a job under any component |
| ObfuscationNumbers.DecimalReads | internal/infrastructure/obfuscation/obfuscator.go:59-80 | a written number reads as itself |
| ObfuscationNumbers.NamesAreNumbered | internal/infrastructure/obfuscation/obfuscator.go:36-109 | over any calls every counter is the number of names made with it |
| ObfuscationNumbers.NewNamesShow | internal/infrastructure/obfuscation/obfuscator.go:53-109 | a new name is made of its fixed parts, its component, label or port, and how many of its kind there are with it |
| ObfuscationNumbers.PortIsKept | internal/infrastructure/obfuscation/obfuscator.go:43-63 | an instance with a port keeps it behind an address of the fake pool, and any other gets its hash |

## Left out

- ExportRuns.TraceKeeps: assumes that no append to a staging file tears, because such an append does leave rows behind (`TornAppendShows`), at the granularity of rows; a line cut in the middle is not modelled.
- ExportRunSteps.RunIsSteps: opening the staging file and writing the archive do not fail with a cancellation, and the engine sees the job's own context.
- ExportRuns.Apply: the batch number a caller puts into the configuration of a new job is taken to be 0, and every job has a staging file of its own.
- ExportEngine.Engine.ExportWindowAdaptive: names of temporary files are fresh, from a clock that moves on; removing a file succeeds.
- AdaptiveJobSplit.JobSplitConservesRows: the server answers both requests from the same data; what a query text selects is a parameter, and a query joined with a job filter selects its rows of those jobs.
- BundleStream.ResumedExactlyOnce: cutoff, shift, labels and remote are those of the first run in every resume; a post is either accepted or rejected, never accepted with a lost answer.
- ImportJobs.ImportedExactlyOnce: job ids, which the source takes from the clock, are used once; one run of streamImport is one step, since only its own job sees its progress.
- SampledExports.SampledIsTrueIff: opening, flushing or closing a local file is taken to fail with an unknown or transient error, as their texts are classed.
- ImportJobs.HasStreamed: verification after the import changes no state and is not modelled.
- LabelSimulation.EvaluateDropImpact: the suggested candidate labels are left out; their order is the browser's locale order.
- LabelSimulation.EncodeSeriesLabelBitsets: base64 is left out; bitsets are passed as bytes.
- Preflight.AnalyzeBundle: the order of the label statistics, a library sort, is left out; total points, example labels, metric name and time range of a summary as well, here and in the import.
- Durations and offsets that overflow int64 (timestamps are modelled with wrap-around).
- Metadata of a job: estimated time, average duration, retry details shown in the status.
- HTTP handlers, authentication, URLs, TLS, recent profiles, the retention and label-limit lookups.
- Error texts: the error kind of a failed request is an answer of the environment.
- Rewriting of selector texts by regular expressions, and the JSON, ZIP and SHA-256 libraries.
- Consistency of obfuscated names between runs of one export: each run makes a new obfuscator.
