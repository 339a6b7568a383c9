# Verification of the evaluation platform

A Dafny 4.11 model of the cores of the platform, with proofs. `dafny verify dfyconfig.toml` checks all of it.

The platform runs retrieval and answer benchmarks. A runner walks a persisted state machine and commits one row for
each query and variant; a leased job queue hands runs to workers; caches and one repair attempt stand before paid model
providers; an ingester builds embedding indexes batch by batch; metrics, sampling, bootstrap statistics, reports and a
regression gate turn the rows into decisions.

## How the model is built

- **Transactions and histories.** Each database transaction is one atomic step over tables that are maps and sequences.
  Methods of classes (`Repository`, `Queue`, `IndexStore`, `Process`, the caching and repairing decorators) update their
  fields in place and are proved equal to step functions; the theorems are about every sequence of those steps.
- **The runner** (`EvaluationPlan`, `EvaluationStore`, `EvaluationRunner`, `RunnerSafety`, `RunnerHistory`,
  `RunnerSolo`, `RunnerCancellation`, `RunnerJudging`, `JudgedTooLate`, `RunnerProgress`, `RunnerCompletion`,
  `EvaluationProcess`, `RunnerReport`, `AnswerSampling`). A runner's position between two transactions is a value of
  `Local`. What providers return, which process moves, when one dies and when a user cancels is an arbitrary sequence of
  events. Any number of runners may work on one run at once; `RunnerSolo` and `RunnerCompletion` add what holds when
  there is one at a time. A call that is interrupted counts as made. `Env.versions` holds every content the dataset may
  have when it is loaded; an unchanging dataset is a single version.
- **The queue** (`JobQueue`, `QueueHistory`, `JobWorkers`, `LeasedRunner`). A log of claims and completions runs beside
  the table. Rows locked by other transactions are an arbitrary set at each claim. `JobWorkers` adds handlers and one
  shared clock, and `LeasedRunner` makes the runner the handler.
- **Ranking and statistics** (`RetrievalMetrics`, `Fusion`, `RetrievalPipeline`, `Sampling`, `Statistics`, `LabelTable`,
  `Calibration`, `LabelScores`, `ListTables`, `Aggregation`, `Reporting`, `ReportRules`, `EvaluationReport`,
  `ReportContents`, `MetricValues`, `Gate`). Exact reals; the discount is any positive decreasing function, the sampling
  digest any function, a bootstrap generator any stream of draws in range. The report's loops are written for any types
  of names and take the rules that make summaries and comparisons, or raise, as parameters; `ReportRules` supplies the
  real ones.
- **Generation** (`GenerationContract`, `Pricing`, `GenerationCaching`, `GenerationHistory`, `JudgeCaching`,
  `JudgeHistory`, `Answering`). A provider is any function of the call number and the request, so it may
  fail, refuse, lie or change its mind. A prompt's hash is the prompt itself, which is what an injective hash amounts to.
- **Index building** (`IndexBuild`). Any interleaving of any ingesters' transactions, and one ingester's pass between
  arbitrary transactions of the others.

`Prelude` holds options, results, stable sorting and facts about sequences.

## Where the code and what is said of it part

- Reranking is documented to keep depth-100 metrics comparable (src/ragops/retrieval/pipeline.py:183-187), but a window
  may hold up to 1,000 candidates (src/ragops/contracts/retrieval.py:30). `RetrievalPipeline.RerankNeutralExactly` and
  `SearchesAreNeutralExactly` give the exact condition and `DeepWindowChangesRecall` an input.
- Usage is lost when the second attempt ends in an exception that is not a generation failure
  (src/ragops/generation/repair.py:40-42), and when the cache layer rejects a paid result
  (src/ragops/generation/cache.py:49-52). `GenerationCaching.ServiceConservesExactly` gives the exact condition for one
  request, `GenerationHistory.UsageIsConserved` for any number; `GenerationCaching.BrokenRepairLosesUsage` and
  `ForeignResultsLoseUsage` are inputs. `JudgeCaching.JudgingConservesExactly`, `JudgeHistory.UsageIsConserved` and
  `JudgeCaching.BrokenRepairLosesUsage` say the same of judges.
- The judge cache never looks at a verdict's provenance (src/ragops/evaluation/judging.py:319-332,
  src/ragops/persistence/judge_cache.py:26-48), so a stored verdict need not match its key.
  `JudgeHistory.VerdictsMatchExactly` says when all do and `JudgeCaching.ForeignVerdictsAreStored` gives an input.
- A lease of at most one second can expire before a renewal that is on time, and one of less than three seconds before
  a renewal that is less than two intervals late, because the heartbeat interval never falls below one second
  (src/ragops/worker.py:113-121). `JobWorkers.DefaultIntervalExactly` and `LeasesThatTolerateLateness` give the exact
  conditions and `OneSecondLeasesOverlap` an input.
- An empty corpus is complete from the start but stays `building` until a recount
  (src/ragops/persistence/embeddings.py:118-120); `IndexBuild.ReadyExactly` includes that case and
  `EmptyCorpusStartsUnready` is the input.
- Judging does not look for a cancellation (src/ragops/evaluation/runner.py:235-273); only the state change at its end
  is refused. So a cancelled run can go on to ask for every verdict that its judge stage still lacks, while searches and
  answers soon stop. `RunnerJudging.CancelledRunsAreJudgedExactly` says from where, and
  `JudgedTooLate.CancelledRunIsStillJudged` is a history in which it happens.
- A worker's lease is checked by worker name and not by expiry (src/ragops/persistence/job_queue.py:196-202), so fencing
  is stated by latest claimer.

## Model

| member | source | states |
|---|---|---|
| `RunnerHistory.EveryHistoryIsSound` | src/ragops/evaluation/runner.py:76-277 | after any history of steps, crashes, restarts, cancellations and overlapping runners: counter equals rows and stays within the total, no row without its pin, every row consistent, every stage passed is really finished, and every row was made under its pinned index |
| `RunnerHistory.HistoryOnlyAdvances` | src/ragops/evaluation/runner.py:98-277 | between any two moments of a history: rows, pins, answers and verdicts that were committed are still there unchanged, progress and stage never go back |
| `RunnerHistory.CommittedStays` | src/ragops/evaluation/runner.py:98-322 | once pinned an index stays, once stored a ranking, an answer and a verdict stay |
| `RunnerProgress.UninterruptedRunsEnd` | src/ragops/evaluation/runner.py:98-277 | a run that is not interrupted ends within a number of steps that only its selection determines |
| `RunnerProgress.MovesOrAwaitsReply` | src/ragops/evaluation/runner.py:98-277 | a runner is never stuck: wherever a history leaves it, it can step by itself exactly when it awaits no dataset, search, answer or verdicts |
| `RunnerProgress.StepIsNearer` | src/ragops/evaluation/runner.py:98-322 | every effective step of a run brings it nearer to its end |
| `RunnerCompletion.ServedRunsComplete` | src/ragops/evaluation/runner.py:76-277 | wherever crashes and restarts left it, an uncancelled lone runner whose awaited replies are acceptable ends with the run completed, within a known number of steps, unless more answers are asked for than queries selected |
| `RunnerCompletion.UnfinishedRunsCanComplete` | src/ragops/evaluation/runner.py:76-277 | a run that was enqueued and has not ended can always be restarted and completed |
| `RunnerHistory.CompletedRunsAreExact` | src/ragops/evaluation/runner.py:132-179 | at completion completed = total = number of rows, the rows are exactly queries times variants of one selection, every variant is pinned |
| `RunnerHistory.CompletedRunsCoverTheSelection` | src/ragops/evaluation/runner.py:110-118 | with an unchanging dataset that selection is the one that sample size and seed determine |
| `RunnerHistory.CompletedRunsAreSettled` | src/ragops/evaluation/runner.py:187-273 | at completion every asked-for answer is stored and every judgeable answer carries a verdict of every profile |
| `RunnerHistory.CloseOutNeverRejects` | src/ragops/evaluation/runner.py:168-175 | the result-count and missing-fingerprint checks of the close-out never reject a run that was not cancelled |
| `RunnerHistory.GenerationLookupsSucceed` | src/ragops/evaluation/runner.py:189-195 | on an unchanging dataset the generation stage finds every row it looks up |
| `RunnerHistory.JudgeLookupsSucceed` | src/ragops/evaluation/runner.py:241-245 | on an unchanging dataset the missing-generated-answer error is unreachable |
| `RunnerHistory.RowsShareOneIndex` | src/ragops/evaluation/runner.py:295-316 | every row was searched under the run's configuration hash and the one fingerprint pinned for its variant |
| `RunnerHistory.ErrorsEndTheRun` | src/ragops/evaluation/runner.py:92-96 | after an exception the run is failed, or left as it ended before |
| `RunnerHistory.AnswerWorkIsStored` | src/ragops/evaluation/runner.py:181-195 | the generation sample times the answered variants lies inside the stored rows |
| `RunnerHistory.StepSound` | src/ragops/evaluation/runner.py:98-322 | one step of one runner keeps everything that is kept, for that runner and all others |
| `RunnerHistory.StepProvenance` | src/ragops/evaluation/runner.py:295-322 | a stored row is exactly the response it was made from |
| `RunnerHistory.RowsComeFromSearches` | src/ragops/evaluation/runner.py:279-322 | only storing a search result adds a row, and it adds the searched one |
| `RunnerHistory.HistoriesLeaveNoGaps` | src/ragops/evaluation/runner.py:187-245 | snapshots held in the generation and judge stages contain every row an answer is asked for |
| `RunnerSafety.NextKeeps` | src/ragops/evaluation/runner.py:98-322 | every step, whatever providers return and wherever the process dies, keeps the table invariant, only advances the tables, and leaves the runner where its invariant holds |
| `RunnerSafety.LocalInvariantKept` | src/ragops/evaluation/runner.py:98-277 | whatever other runners commit, a runner's own standing stays valid |
| `RunnerSafety.LoopEndCovers` | src/ragops/evaluation/runner.py:147-179 | when the loop has run out, the rows, the total and the pins are exactly what the selection demands |
| `RunnerSafety.StoreKeeps` | src/ragops/evaluation/runner.py:289-322 | committing one search result keeps the invariant, also when another runner stored the row first |
| `RunnerSafety.StampKeeps` | src/ragops/evaluation/runner.py:299-305 | pinning keeps the invariant, also when another runner pinned first |
| `RunnerSafety.InitializeKeeps` | src/ragops/evaluation/runner.py:132-145 | restoring progress from an old view never corrupts the counter or the total |
| `RunnerSafety.GenerateKeeps` | src/ragops/evaluation/runner.py:187-201 | a step of the generation loop keeps the invariant; its end proves every answer stored |
| `RunnerSafety.StoreAnswerKeeps` | src/ragops/evaluation/runner.py:216-229 | storing an answer keeps the invariant |
| `RunnerSafety.JudgeNextKeeps` | src/ragops/evaluation/runner.py:235-261 | a step of the judge loop keeps the invariant; its end proves every verdict stored |
| `RunnerSafety.StoreVerdictsKeeps` | src/ragops/evaluation/runner.py:266-272 | storing verdicts keeps the invariant |
| `RunnerSafety.VerdictsSettle` | src/ragops/evaluation/runner.py:252-272 | asking exactly the profiles missing from a possibly old snapshot leaves none missing |
| `RunnerSolo.CommittedWorkIsNotSearchedAgain` | src/ragops/evaluation/runner.py:147-163 | with one live runner at a time, no committed work is ever searched again |
| `RunnerSolo.StoredAnswersAreNotAskedAgain` | src/ragops/evaluation/runner.py:193-201 | nor is a stored answer asked for again |
| `RunnerSolo.StoredVerdictsAreNotAskedAgain` | src/ragops/evaluation/runner.py:252-265 | nor is a profile asked about a row that carries its verdict |
| `RunnerSolo.ConsistencyChecksNeverFail` | src/ragops/evaluation/runner.py:98-277 | none of the run's own checks ever fails: it raises inside only when cancelled or when more answers are asked for than queries selected, and returns only completed or cancelled |
| `RunnerSolo.ProgressFits` | src/ragops/evaluation/runner.py:132-145 | a restarted runner always computes the total that is stored |
| `RunnerSolo.StoreFits` | src/ragops/evaluation/runner.py:289-322 | storing a search result never exceeds the total |
| `RunnerCancellation.SearchesAfterCancellation` | src/ragops/evaluation/runner.py:147-160 | after a cancellation, whatever other runners do, a runner makes only the searches before its next look, at most one for each variant |
| `RunnerCancellation.RowsAfterCancellation` | src/ragops/evaluation/runner.py:147-160 | and stores only their results and that of one search made before, at most one row for each variant |
| `RunnerCancellation.AnswersAfterCancellation` | src/ragops/evaluation/runner.py:195-207 | no answer is asked for after a cancellation, except one that was awaited already |
| `RunnerJudging.VerdictsAfterCancellation` | src/ragops/evaluation/runner.py:235-275 | after a cancellation a runner asks for no more verdicts than the judge stage it stands in, or is on its way to, still lacks, and for none from anywhere else |
| `RunnerJudging.CancelledRunsAreJudgedExactly` | src/ragops/evaluation/runner.py:235-275 | a runner of a cancelled run still asks for verdicts exactly from a standing in the judge stage, or on its way there, with a judgeable row that lacks a profile ahead |
| `JudgedTooLate.CancelledRunIsStillJudged` | src/ragops/evaluation/runner.py:235-275 | a concrete history in which a cancelled run goes on to ask its judge |
| `EvaluationPlan.CheckIsNear` | src/ragops/evaluation/runner.py:149-163 | from any point of the loop at most one query's variants are searched before the next look for a cancellation |
| `EvaluationPlan.WorkSetSize` | src/ragops/evaluation/runner.py:132 | there are as many work items as queries times variants |
| `EvaluationPlan.ProgramSearchesOnce` | src/ragops/evaluation/runner.py:149-163 | no work item comes twice in the loop |
| `EvaluationPlan.ProgramMembers` | src/ragops/evaluation/runner.py:149-163 | the loop searches exactly the queries times variants |
| `EvaluationPlan.WorkListMembers` | src/ragops/evaluation/runner.py:193-194 | the generation and judge loops visit exactly their queries times variants |
| `EvaluationProcess.Process.Step` | src/ragops/evaluation/runner.py:98-322 | the process, updating its locals and the tables in place, does exactly what the step function says |
| `EvaluationProcess.Process.Run` | src/ragops/evaluation/runner.py:98-322 | a whole life of the process is the composition of its steps |
| `EvaluationProcess.Process.StartRetrieval` | src/ragops/evaluation/runner.py:99-146 | preparing, restoring progress and entering retrieval, in place |
| `EvaluationProcess.Process.StoreSearch` | src/ragops/evaluation/runner.py:299-322 | pinning and storing one search result, in place |
| `EvaluationProcess.Process.StoreAnswerOrVerdicts` | src/ragops/evaluation/runner.py:216-272 | storing an answer or verdicts, in place |
| `EvaluationProcess.Process.MarkFailure` | src/ragops/evaluation/runner.py:375-382 | recording the failure, in place |
| `EvaluationProcess.Process.WalkQueries` | src/ragops/evaluation/runner.py:147-171 | the retrieval loop and its close-out checks, in place |
| `EvaluationProcess.Process.WalkAnswers` | src/ragops/evaluation/runner.py:193-232 | the generation loop, in place |
| `EvaluationProcess.Process.WalkVerdicts` | src/ragops/evaluation/runner.py:241-273 | the judge loop, in place |
| `RunnerReport.CompletedRunsAreReportable` | src/ragops/evaluation/reporting.py:155-218 | every run completed under any history passes every check of the report: count, variants, metrics, duplicates, even spread, same query set, known labels |
| `RunnerReport.CompletedRunsHaveReports` | src/ragops/evaluation/reporting.py:49-318 | and building its report raises nowhere, in no check and no statistic, exactly when the number of resamples is positive |
| `RunnerReport.VariantCoversQueries` | src/ragops/evaluation/reporting.py:219-231 | each variant's rows are exactly the selected queries |
| `RunnerReport.VariantCount` | src/ragops/evaluation/reporting.py:219-228 | each variant has one row for each selected query |
| `RunnerReport.JudgeScoresAreStored` | src/ragops/evaluation/reporting.py:201-203 | the judge scores that are reported are exactly the stored ones |
| `EvaluationReport.BuildEvaluationReport` | src/ragops/evaluation/reporting.py:155-318 | a report is built exactly for reportable runs and a positive number of resamples, and holds exactly the summaries, latencies and comparisons of their rows |
| `EvaluationReport.ReportSaysSo` | src/ragops/evaluation/reporting.py:109-152 | it compares every earlier variant with every later one on every metric; a variant that wins on every query is significantly better, one that loses on every query significantly worse, and a complete tie is not significant |
| `EvaluationReport.BootstrapReportExactly` | src/ragops/evaluation/reporting.py:49-318 | which rows and how many resamples the statistics and the comparisons accept |
| `Reporting.CollectScores` | src/ragops/evaluation/reporting.py:174-207 | the first pass succeeds exactly on well-formed rows without duplicates, and its tables hold exactly the rows' required, further, judge and cost values, paired scores and stage durations |
| `Reporting.RecordResult` | src/ragops/evaluation/reporting.py:182-207 | one row's values enter the tables under their names, or it is missing a metric or is a duplicate |
| `EvaluationReport.ReportTables` | src/ragops/evaluation/reporting.py:209-318 | the later passes report exactly what the rows say, or fail for an uneven spread, differing queries, an unknown label or no resamples |
| `Reporting.JudgeScoresNeverShadowRetrieval` | src/ragops/evaluation/reporting.py:201-203 | no judge profile name can add values to a retrieval metric's list |
| `Reporting.NoDuplicatesOfMore` | src/ragops/evaluation/reporting.py:189-193 | a row is a duplicate exactly if its query was seen under its variant |
| `Aggregation.SummarizeAll` | src/ragops/evaluation/reporting.py:211-286 | for every variant the required metrics, the further ones in the order of their names and the score over labels, or the first error |
| `Aggregation.SummarizeLatencies` | src/ragops/evaluation/reporting.py:288-302 | one latency summary for every variant and stage, or the first error |
| `Aggregation.BuildVariantComparisons` | src/ragops/evaluation/reporting.py:109-152 | every pair of variants on every metric in order, or the first error |
| `Aggregation.ReportComparesAllPairs` | src/ragops/evaluation/reporting.py:120-151 | no pair of variants and no metric is left out |
| `ReportRules.CompareExactly` | src/ragops/evaluation/reporting.py:123-139 | two variants can be compared exactly when they share a non-empty query set and resamples is positive |
| `ReportRules.LatencyMeaning` | src/ragops/evaluation/reporting.py:288-302 | both percentiles lie within the bounds of the durations, the median not above the 95th |
| `ReportRules.UnanimousVariantIsSignificant` | src/ragops/evaluation/reporting.py:132-149 | a comparison in which one variant is better on every query is significant, with the right sign |
| `ReportRules.EqualVariantsAreNotSignificant` | src/ragops/evaluation/reporting.py:132-149 | one with equal scores on every query has the interval [0, 0] and is not |
| `Statistics.PercentileWithin` | src/ragops/evaluation/reporting.py:49-59 | a percentile lies within any bounds of the values |
| `Statistics.PercentileMonotone` | src/ragops/evaluation/reporting.py:49-59 | and grows with the quantile |
| `Statistics.PercentileIgnoresOrder` | src/ragops/evaluation/reporting.py:49-59 | and does not depend on the order of the values |
| `Statistics.PercentileMirror` | src/ragops/evaluation/reporting.py:49-59 | and mirrors under negation |
| `Statistics.IntervalWithin` | src/ragops/evaluation/reporting.py:62-75 | for every draw stream low <= high, both within the bounds of the values |
| `Statistics.LowestAndHighest` | src/ragops/evaluation/reporting.py:78-101 | such bounds are attained, so they are the extremes |
| `Statistics.UnanimousWinIsSignificant` | src/ragops/evaluation/reporting.py:78-101 | for every draw stream a unanimous difference excludes zero, with the right sign |
| `Statistics.TieIsNotSignificant` | src/ragops/evaluation/reporting.py:78-101 | all-zero differences give [0, 0], not significant |
| `Statistics.ComparisonIsAntisymmetric` | src/ragops/evaluation/reporting.py:78-101 | comparing the other way round mirrors the interval and keeps significance |
| `LabelScores.MacroF1Meaning` | src/ragops/evaluation/answer_metrics.py:69-87 | macro-F1 lies in [0, 1], is 1 exactly if every prediction is right and every label occurs, and 0 exactly if none is right |
| `EvaluationStore.Repository.AddResult` | src/ragops/evaluation/repository.py:136-183 | insert unless present, recount, reject beyond the total, with the whole new state |
| `EvaluationStore.Repository.UpdateAnswer` | src/ragops/evaluation/repository.py:185-209 | the first answer is stored and charged, later ones change nothing |
| `EvaluationStore.Repository.UpdateJudges` | src/ragops/evaluation/repository.py:211-241 | the loop adds each new profile's verdict, scores and cost and skips the rest |
| `EvaluationStore.RowUpdateAdvances` | src/ragops/evaluation/repository.py:185-241 | updating a row keeps the table invariant |
| `EvaluationStore.ResultAdvances` | src/ragops/evaluation/repository.py:136-183 | adding a row keeps the counter equal to the rows and within the total |
| `EvaluationStore.AnswerRowAdvances` | src/ragops/evaluation/repository.py:204-209 | an answer keeps the row's cost exact and its retrieval scores untouched |
| `EvaluationStore.JudgeAllConsistent` | src/ragops/evaluation/repository.py:228-241 | the stored cost is the answer's plus every verdict's, each profile charged once |
| `EvaluationStore.JudgeAllAdvances` | src/ragops/evaluation/repository.py:228-241 | stored verdicts are never replaced |
| `EvaluationStore.JudgeAllProfiles` | src/ragops/evaluation/repository.py:228-241 | every profile asked about ends up stored |
| `EvaluationStore.RepeatedJudgingIsFree` | src/ragops/evaluation/repository.py:230-232 | repeating an update, as a resumed run may, changes and charges nothing |
| `RunnerHistory.CostsAreConserved` | src/ragops/evaluation/repository.py:204-241 | at every moment of every history a row's cost is its answer's cost plus its verdicts' costs, each profile once |
| `EvaluationStore.AnswerScoresLeaveRetrievalAlone` | src/ragops/evaluation/answer_metrics.py:8-24 | answer metrics never overwrite a retrieval metric when score dictionaries merge |
| `EvaluationStore.Repository.PinIndexFingerprint` | src/ragops/persistence/repositories.py:147-168 | pin an unpinned known variant, accept the same pin, reject drift, with the whole new state |
| `EvaluationStore.Repository.SetState` | src/ragops/persistence/repositories.py:170-182 | change to an allowed state only |
| `EvaluationStore.Repository.SetProgress` | src/ragops/persistence/repositories.py:184-200 | reject impossible, decreasing or re-totalled progress |
| `EvaluationStore.Repository.constructor` | src/ragops/persistence/repositories.py:102-133 | a run starts created, empty and without pins |
| `EvaluationStore.PinAdvances` | src/ragops/persistence/repositories.py:147-168 | a pin never changes another pin |
| `EvaluationStore.ProgressAdvances` | src/ragops/persistence/repositories.py:184-200 | a progress snapshot can be written back only while it is still the count |
| `RunnerHistory.TerminalStatesAreFinal` | src/ragops/contracts/evaluation.py:33-58 | completed, failed and cancelled runs stay so under every later history |
| `EvaluationContract.StagesNeverGoBack` | src/ragops/contracts/evaluation.py:33-58 | along allowed transitions stages never go back and terminal states stay |
| `EvaluationContract.CompletionVisitsEveryStage` | src/ragops/contracts/evaluation.py:33-58 | a completed run was queued, preparing, retrieving and scoring |
| `Sampling.SelectionMeaning` | src/ragops/evaluation/runner.py:36-51 | size, membership, order and the only failure of a selection |
| `Sampling.SelectionTakesSmallestKeys` | src/ragops/evaluation/runner.py:46-51 | no unselected query has a smaller key than a selected one |
| `Sampling.SelectionIgnoresOrder` | src/ragops/evaluation/runner.py:36-51 | the selection does not depend on the input order |
| `Sampling.SelectionNests` | src/ragops/evaluation/runner.py:36-51 | sampling from a sample equals sampling directly |
| `Sampling.GenerationQueriesWereRetrieved` | src/ragops/evaluation/runner.py:181-185 | every query of the generation phase was part of the retrieval phase |
| `QueueHistory.HistoriesKeepInvariant` | src/ragops/persistence/job_queue.py:22-219 | after every history attempts = past claims <= maximum, pending jobs have attempts left, leased = owner and expiry, the owner is the latest claimer, completed = finished once |
| `QueueHistory.TerminalForever` | src/ragops/persistence/job_queue.py:125-219 | completed, failed and cancelled rows are never touched again |
| `QueueHistory.SupersededWorkersArePowerless` | src/ragops/persistence/job_queue.py:141-202 | a heartbeat, completion or failure from anyone but the latest claimer changes nothing |
| `QueueHistory.LatestClaimerOwnsTheLease` | src/ragops/persistence/job_queue.py:196-202 | a leased job is owned exactly by its latest claimer, expired or not |
| `QueueHistory.CompletedAtMostOnce` | src/ragops/persistence/job_queue.py:149-156 | over a whole history a job completes at most once |
| `QueueHistory.ClaimsAreBounded` | src/ragops/persistence/job_queue.py:125-139 | over a whole history the claims are at most the sum of the maximum attempts |
| `QueueHistory.NoJobIsStranded` | src/ragops/persistence/job_queue.py:22-219 | in any stretch of a history without new jobs, every job has ended once there were more unhindered claims that need not wait for some job's time than attempts left |
| `QueueHistory.FreeClaimsProgress` | src/ragops/persistence/job_queue.py:22-36 | such a claim returns a job or leaves every job ended |
| `QueueHistory.KeysStayUnique` | src/ragops/persistence/job_queue.py:78-119 | however often a keyed job is enqueued the table holds it once |
| `QueueHistory.RetriesWaitOutTheirDelay` | src/ragops/persistence/job_queue.py:158-174 | a failed attempt ends the job exactly after the last one and is otherwise claimable exactly from its delay on |
| `QueueHistory.LeasesProtect` | src/ragops/persistence/job_queue.py:22-36 | a claimed or renewed job is claimable exactly from its expiry on, if attempts are left |
| `JobQueue.Queue.Enqueue` | src/ragops/persistence/job_queue.py:78-119 | with a known key nothing changes and its job is returned, otherwise one pending row is appended |
| `JobQueue.Queue.Claim` | src/ragops/persistence/job_queue.py:125-139 | sweep, then lease the first claimable unlocked job, or none if there is none |
| `JobQueue.Queue.FindClaimable` | src/ragops/persistence/job_queue.py:22-36 | the earliest available, then earliest created, claimable unlocked job |
| `JobQueue.Queue.MarkExhaustedLeasesFailed` | src/ragops/persistence/job_queue.py:204-219 | exactly the expired leases without attempts left become failed |
| `JobQueue.Queue.Heartbeat` | src/ragops/persistence/job_queue.py:141-147 | renew the lease of its owner, whole new state |
| `JobQueue.Queue.Complete` | src/ragops/persistence/job_queue.py:149-156 | complete for the lease's owner, whole new state |
| `JobQueue.Queue.Fail` | src/ragops/persistence/job_queue.py:158-174 | fail or reschedule for the lease's owner, whole new state |
| `JobQueue.Queue.Cancel` | src/ragops/persistence/job_queue.py:176-188 | cancel unless completed or failed, whole new state |
| `JobWorkers.OverlapExactly` | src/ragops/worker.py:123-165 | two handlers of one job are never live at once exactly when every renewal lands before the lease runs out |
| `JobWorkers.RunsAreSafe` | src/ragops/worker.py:123-165 | while a handler runs its job stays leased to its worker until some time ahead, or was cancelled, and no other handler of it is live |
| `JobWorkers.LateRenewalsOverlap` | src/ragops/worker.py:145-165 | a concrete run with two live handlers when a renewal may be a lease late |
| `LeasedRunner.LeasedHistoriesAreSolo` | src/ragops/worker.py:113-165 | whatever workers, queue, runner and users do, with renewals before the lease runs out it can be told as a history of one runner at a time |
| `LeasedRunner.TimelyRenewalsPayOnce` | src/ragops/worker.py:113-165 | so no worker ever searches for committed work or asks for a stored answer or verdict, however many workers there are and whichever die |
| `JobWorkers.DefaultHeartbeatsSuffice` | src/ragops/worker.py:113-121 | with a lease of at least three seconds and heartbeats less than two intervals late handlers never overlap |
| `JobWorkers.LeasesThatTolerateLateness` | src/ragops/worker.py:113-121 | that lateness is tolerated exactly for leases of three seconds up |
| `JobWorkers.DefaultIntervalExactly` | src/ragops/worker.py:113-165 | with the default interval handlers never overlap exactly when the latest renewal beats the lease; renewals on time suffice exactly for leases of more than one second |
| `JobWorkers.OneSecondLeasesOverlap` | src/ragops/worker.py:113-165 | a lease of one second can expire before a renewal that is on time |
| `RetrievalMetrics.IdealGainIsLargest` | src/ragops/evaluation/retrieval_metrics.py:31-49 | rearrangement: no ranking's discounted gain exceeds the ideal one, for every decreasing positive discount |
| `RetrievalMetrics.NdcgBounds` | src/ragops/evaluation/retrieval_metrics.py:36-49 | 0 <= nDCG <= 1 |
| `RetrievalMetrics.NdcgPerfectExactly` | src/ragops/evaluation/retrieval_metrics.py:36-49 | exactly when nDCG is 1 |
| `RetrievalMetrics.NdcgPerfectRanking` | src/ragops/evaluation/retrieval_metrics.py:36-49 | nDCG is 1 when the ranking opens with all positive documents by falling grade |
| `RetrievalMetrics.RecallBounds` | src/ragops/evaluation/retrieval_metrics.py:52-64 | 0 <= recall <= 1, and when each is reached |
| `RetrievalMetrics.RecallGrowsWithDepth` | src/ragops/evaluation/retrieval_metrics.py:52-64 | recall grows with the cutoff |
| `RetrievalMetrics.ReciprocalRankMeaning` | src/ragops/evaluation/retrieval_metrics.py:67-76 | the reciprocal rank names the first relevant position |
| `RetrievalMetrics.MetricsAlwaysFitContract` | src/ragops/evaluation/retrieval_metrics.py:79-95 | the score contract can always be built; the only failures are the two input errors |
| `RetrievalMetrics.MetricsAgreeOnHits` | src/ragops/evaluation/retrieval_metrics.py:79-95 | the metrics agree on whether there is a hit |
| `RetrievalMetrics.GainDominated` | src/ragops/evaluation/retrieval_metrics.py:31-33 | a dominated sequence of grades gains at most as much under every discount |
| `RetrievalMetrics.TopSum` | src/ragops/evaluation/retrieval_metrics.py:40-45 | no distinct selection sums to more than the largest values |
| `Fusion.ReciprocalRankFusion` | src/ragops/retrieval/fusion.py:8-21 | the loops return the unique fusion: the union without duplicates, summed scores, ordered by falling score and identifier |
| `Fusion.Accumulate` | src/ragops/retrieval/fusion.py:14-17 | the score dictionary holds exactly the sums of 1/(k+rank) |
| `Fusion.FusionIsUnique` | src/ragops/retrieval/fusion.py:18-21 | the order and scores leave no choice |
| `Fusion.FusionIgnoresListOrder` | src/ragops/retrieval/fusion.py:15-17 | the result does not depend on the order of the lists |
| `Fusion.DominanceIsRespected` | src/ragops/retrieval/fusion.py:14-21 | a document at least as high in every list and higher in one comes first |
| `RetrievalPipeline.Search` | src/ragops/retrieval/pipeline.py:69-221 | the stages compose: fusion or the one list, promotion, cut, hydration; the search succeeds, or misses a document, or rejects the fusion or the scores, each exactly when it should, and records every stage's score of every hit and nothing else |
| `RetrievalPipeline.Rerank` | src/ragops/retrieval/pipeline.py:146-193 | the rerank stage moves at most `keep` documents of the window to the top, best first, and leaves all others in their order |
| `RetrievalPipeline.FirstStage` | src/ragops/retrieval/pipeline.py:86-144 | retrieval and fusion return a duplicate-free first ranking and record the scores of each stage |
| `RetrievalPipeline.Hydrate` | src/ragops/retrieval/pipeline.py:195-217 | the final cut, with scores recorded for every hit |
| `RetrievalPipeline.RecordScores` | src/ragops/retrieval/pipeline.py:223-228 | each hit's score is recorded under the stage's name; other stages' scores and other documents stay |
| `RetrievalPipeline.PromotionIsPermutation` | src/ragops/retrieval/pipeline.py:188-192 | promotion permutes the ranking |
| `RetrievalPipeline.PromotionKeepsDeepPrefixes` | src/ragops/retrieval/pipeline.py:183-192 | from the candidate window on, the first documents are the same set |
| `RetrievalPipeline.UnpromotedKeepOrder` | src/ragops/retrieval/pipeline.py:190-192 | unpromoted documents keep their order |
| `RetrievalPipeline.RecallUnchangedByRerank` | src/ragops/retrieval/pipeline.py:183-192 | recall of the promoted list at any depth from the window on is unchanged, for all relevance judgements |
| `RetrievalPipeline.SearchesAreNeutralExactly` | src/ragops/retrieval/pipeline.py:183-217 | a reranked search of k hits has its parent's recall at a depth, for every ranking, scorer and judgement, exactly when the window reaches past neither the depth nor k |
| `RetrievalPipeline.DeepWindowChangesRecall` | src/ragops/retrieval/pipeline.py:183-192 | a concrete rerank that changes recall above its window |
| `RetrievalPipeline.RerankNeutralExactly` | src/ragops/contracts/retrieval.py:28-37 | a window is neutral for recall at a depth, for every ranking, scorer and judgement, exactly when it is not deeper |
| `Calibration.KappaBounds` | src/ragops/evaluation/calibration.py:12-21 | kappa lies in [-1, 1] for all non-empty lists of equal length |
| `Calibration.KappaIsOneExactly` | src/ragops/evaluation/calibration.py:12-21 | it is 1 exactly on full agreement |
| `Calibration.KappaIsMinusOneExactly` | src/ragops/evaluation/calibration.py:12-21 | it is -1 exactly when the raters never agree and say yes equally often |
| `Calibration.ZeroFallbackIsUnreachable` | src/ragops/evaluation/calibration.py:19-20 | when chance agreement is 1 the observed one is, so zero is never returned there |
| `Calibration.KappaIsSymmetric` | src/ragops/evaluation/calibration.py:12-21 | exchanging the raters changes nothing |
| `Calibration.TableKappa` | src/ragops/evaluation/calibration.py:15-21 | the same for any two-by-two table of real weights |
| `Gate.EvaluateGate` | src/ragops/evaluation/gate.py:147-200 | which differences of the two sides are rejected, field by field; otherwise, if complete, one result for each gated metric by variant and metric, of the last mean reported, breached exactly if it lies below the baseline by more than tolerance and slack; passes exactly without breach |
| `Gate.BuildBaseline` | src/ragops/evaluation/gate.py:24-48 | records the last mean for every measure, or rejects a document, told by its fields, that the baseline contract forbids |
| `Gate.CompareMeasures` | src/ragops/evaluation/gate.py:168-192 | the loop skips ungated metrics, rejects a missing one and compares the rest |
| `Gate.OwnBaselinePasses` | src/ragops/evaluation/gate.py:24-48 | a run gated against its own baseline passes with zero deltas, if anything is gated |
| `Gate.RaisingMeansKeepsPassing` | src/ragops/evaluation/gate.py:168-192 | raising observed means never turns a pass into a failure |
| `Gate.LooserTolerancesKeepPassing` | src/ragops/evaluation/gate.py:168-192 | nor does loosening tolerances |
| `GenerationHistory.UsageIsConserved` | src/ragops/generation/cache.py:38-56 | over any requests to any provider replies report all that was charged exactly when no request lost usage |
| `GenerationCaching.ServiceConservesExactly` | src/ragops/generation/cache.py:38-56 | one request reports all it spent except in two named cases |
| `GenerationCaching.ForeignResultsLoseUsage` | src/ragops/generation/cache.py:49-52 | a concrete request that loses usage, to a result of another model |
| `GenerationHistory.AtMostTwoCallsEach` | src/ragops/generation/cache.py:38-56 | every request makes at most two provider calls, and none exactly when its prompt is stored |
| `GenerationHistory.AnsweredOnceAnsweredForever` | src/ragops/generation/cache.py:38-56 | a prompt answered once is answered from the result then stored ever after, free and without a call, under any trace identity; only another model's result that someone else inserted raises |
| `GenerationHistory.StoredResultsAnswer` | src/ragops/generation/cache.py:38-56 | and never raises if others insert only what matches their keys |
| `GenerationCaching.CachingGenerator.Generate` | src/ragops/generation/cache.py:38-56 | lookup, provenance check, delegation and insert-if-absent, in place |
| `GenerationHistory.OnlySuccessIsStored` | src/ragops/generation/cache.py:49-56 | failures store nothing, successes are stored |
| `GenerationHistory.CacheIsImmutable` | src/ragops/persistence/generation_cache.py:32-61 | a stored entry is never replaced, whatever other processes insert |
| `GenerationHistory.CacheStaysValid` | src/ragops/persistence/generation_cache.py:32-61 | every stored entry's provenance matches its key |
| `GenerationCaching.RepairAccounts` | src/ragops/generation/repair.py:27-45 | repair reports both attempts, unless the second one ends in another exception |
| `GenerationCaching.BrokenRepairLosesUsage` | src/ragops/generation/repair.py:40-42 | a concrete request that loses usage, to a broken second attempt |
| `GenerationCaching.RepairingGenerator.Generate` | src/ragops/generation/repair.py:27-45 | one retry with the combined usage, in place |
| `GenerationCaching.RepliesStayPriced` | src/ragops/generation/repair.py:8-15 | if the provider charges by the table, every reply that leaves the cache carries a table price |
| `Pricing.CombineIsAMonoid` | src/ragops/generation/repair.py:8-15 | combined usage is valid, associative, commutative and has a unit |
| `Pricing.PricingIsAdditive` | src/ragops/config.py:155-192 | pricing combined usage costs the sum of the prices, and a model has a price exactly if it is in the table |
| `Pricing.CostsAreNonNegative` | src/ragops/config.py:155-192 | every cost that can be calculated makes a valid usage |
| `JudgeCaching.RepairedVerdictNamesTheRequest` | src/ragops/evaluation/judging.py:285-307 | a delivered verdict names another prompt only if it is a first attempt's; a repaired one names the request's, whatever the judge says |
| `JudgeCaching.RepairChangesThePrompt` | src/ragops/evaluation/judging.py:285-307 | which the repair prompt is not |
| `JudgeCaching.JudgingConservesExactly` | src/ragops/evaluation/judging.py:285-332 | one judged request reports all it spent exactly when it is not one of the two named losing kinds |
| `JudgeCaching.BrokenRepairLosesUsage` | src/ragops/evaluation/judging.py:299-301 | a concrete judged request that loses usage |
| `JudgeHistory.UsageIsConserved` | src/ragops/evaluation/judging.py:285-332 | over any requests to any judge, verdicts and failures report all that was charged exactly when no request lost usage |
| `JudgeHistory.AtMostTwoCallsEach` | src/ragops/evaluation/judging.py:285-332 | every request asks the judge at most twice, and not at all exactly when its prompt is stored |
| `JudgeHistory.JudgedOnceJudgedForever` | src/ragops/evaluation/judging.py:319-332 | a prompt judged once is judged from the verdict then stored ever after, free and without a call |
| `JudgeCaching.RepairingJudge.Judge` | src/ragops/evaluation/judging.py:285-307 | one retry, original prompt restored, in place |
| `JudgeCaching.CachingJudge.Judge` | src/ragops/evaluation/judging.py:319-332 | lookup, delegation and insert-if-absent, in place |
| `JudgeHistory.StoredVerdictsStay` | src/ragops/persistence/judge_cache.py:26-48 | no stored verdict is ever replaced, whatever is asked, answered or inserted, honest or not |
| `JudgeHistory.OnlyVerdictsAreStored` | src/ragops/persistence/judge_cache.py:26-48 | whatever is stored was there at first, inserted by others or delivered as a verdict for its prompt; failures never are |
| `JudgeHistory.VerdictsMatchExactly` | src/ragops/persistence/judge_cache.py:26-48 | every stored verdict names the judge and the prompt of its key exactly as long as no request delivered another judge's or, unrepaired, another prompt's |
| `JudgeHistory.HonestVerdictsMatch` | src/ragops/persistence/judge_cache.py:26-48 | with a judge that names itself and its prompt they always do |
| `JudgeCaching.CacheMatchesExactly` | src/ragops/persistence/judge_cache.py:26-48 | the same for one request |
| `JudgeCaching.ForeignVerdictsAreStored` | src/ragops/persistence/judge_cache.py:26-48 | a concrete judge whose verdict is stored under a key it does not match |
| `Answering.Duplicates` | src/ragops/generation/validation.py:8-15 | the loop returns the repeated values in the order of their second occurrence |
| `Answering.RepeatsMeaning` | src/ragops/generation/validation.py:8-15 | exactly the values with two or more occurrences, each once |
| `Answering.ValidationMeaning` | src/ragops/generation/validation.py:18-54 | fails only on ambiguous contexts; valid exactly for well-cited answers; names exactly the unknown, repeated and unquoted citations |
| `Answering.ResponsesAreValid` | src/ragops/generation/service.py:58-136 | whatever the provider returns, the response built from it passes the response validator and carries its usage |
| `Answering.WhenAnsweringRaises` | src/ragops/generation/service.py:58-136 | answering raises exactly for an unexpected exception, foreign provenance or ambiguous contexts of a generated result |
| `Answering.ClassificationIsConsistent` | src/ragops/contracts/generation.py:176-210 | the chosen outcome meets the outcome's own conditions |
| `IndexBuild.CounterAlwaysAgrees` | src/ragops/persistence/embeddings.py:101-180 | under every interleaving and interruption nothing raises, the counter equals the recount and the insert counts of all attempts add up to it |
| `IndexBuild.ReadyExactly` | src/ragops/persistence/embeddings.py:101-143 | ready exactly when every document is embedded and something was ever written or recounted; then all attempts inserted one row for each document |
| `IndexBuild.EmptyCorpusStartsUnready` | src/ragops/persistence/embeddings.py:118-120 | the input that makes the second part matter |
| `IndexBuild.TransactionKeeps` | src/ragops/persistence/embeddings.py:101-143 | each transaction keeps the invariant and only grows the rows |
| `IndexBuild.IndexStore.AddMissing` | src/ragops/persistence/embeddings.py:125-180 | insert what is missing and advance the counter by exactly that, in place |
| `IndexBuild.IndexStore.RefreshProgress` | src/ragops/persistence/embeddings.py:101-123 | a full recount, in place |
| `IndexBuild.IndexStore.EmbedMissing` | src/ragops/ingestion/service.py:183-230 | a pass that is not cut short leaves every document embedded, whatever others commit meanwhile; no pass raises |
| `IndexBuild.IndexStore.EmbedBatch` | src/ragops/ingestion/service.py:202-229 | one batch: look, let others commit, write what was missing |
| `IndexBuild.BatchesMeaning` | src/ragops/ingestion/service.py:29-32 | the batches are the values in order, cut into non-empty full pieces |
| `IndexBuild.IndexStore.Ingest` | src/ragops/ingestion/service.py:125-148 | a whole ingest that is not cut short ends ready with one row for each document and an exact count, whatever others commit meanwhile; no ingest raises |
| `AnswerSampling.OnlyTheSampleIsAnswered` | src/ragops/evaluation/runner.py:181-273 | over every history a row carries an answer or a verdict only if generation is enabled, its variant is an answered one and its query is in a sample, given by size and digests, of the selected queries; a verdict only of a configured profile, on an answer a provider gave |
| `AnswerSampling.CompletedRunsAnswerTheSample` | src/ragops/evaluation/runner.py:181-232 | a completed run on an unchanging dataset has answered exactly the sample under the answered variants, so exactly the asked-for number of queries times answered variants |
| `AnswerSampling.CompletedRunsJudgeEveryAnswer` | src/ragops/evaluation/runner.py:235-273 | and every answer a provider gave has a verdict of each configured profile and of no other, any other answer none |
| `AnswerSampling.CompletedRunsRetrieveTheSample` | src/ragops/evaluation/runner.py:110-179 | the rows of a completed run are those of a sample of the dataset under every variant, as many as asked for times variants |
| `AnswerSampling.StagesAreAskedFor` | src/ragops/evaluation/runner.py:235-277 | in every history a run is generating only if that is enabled, and judging only if it has judges besides |
| `EvaluationPlan.ProgramAt` | src/ragops/evaluation/runner.py:147-163 | the retrieval loop goes query by query: one look for a cancellation, then the query under each variant in order |
| `EvaluationPlan.WorkListAt` | src/ragops/evaluation/runner.py:193-194 | the generation and judge loops go query by query, variant by variant |
| `Sampling.SelectionIsSample` | src/ragops/evaluation/runner.py:36-51 | a selection has the size asked for, and whoever is left out has a higher digest, or the same and a later identifier |
| `Sampling.SelectionIsListedInOrder` | src/ragops/evaluation/runner.py:36-51 | and is listed in the order of its identifiers |
| `EvaluationContract.TransitionsExactly` | src/ragops/contracts/evaluation.py:33-58 | a live run moves on to its next stage, or past answers straight to scoring, and may end at any time; nothing else is allowed |
| `EvaluationStore.NewRowNamesScores` | src/ragops/evaluation/retrieval_metrics.py:79-95 | a new row carries the four retrieval scores, each under its own name, and nothing else yet |
| `EvaluationStore.AnswerRowNamesScores` | src/ragops/evaluation/answer_metrics.py:8-24 | an answer adds each of its metrics under its own name |
| `EvaluationStore.VerdictNamesScores` | src/ragops/evaluation/repository.py:228-241 | a new verdict's two scores are stored under its profile's name and its cost is charged |
| `QueueHistory.HistoriesClaimInOrder` | src/ragops/persistence/job_queue.py:22-36 | over every history, whoever is claimed was free to be taken, and no other job that was had been available earlier, or as early and created earlier |
| `QueueHistory.ClaimsGoInOrder` | src/ragops/persistence/job_queue.py:22-36 | the same for one claim, on the fields of the jobs |
| `QueueHistory.NewJobsWaitForTheirTime` | src/ragops/persistence/job_queue.py:78-119 | a new job can be taken exactly from its time on |
| `QueueHistory.JobsEndOnlySo` | src/ragops/persistence/job_queue.py:141-219 | a job ends only by a cancellation of it, a report of its lease's owner, or the sweep of its last lease; and fails only after its last attempt |
| `QueueHistory.ReportsAreHeardExactly` | src/ragops/persistence/job_queue.py:141-202 | a heartbeat, completion or failure is heard exactly from the owner of the job's lease, a cancellation exactly before its end |
| `JobWorkers.ThreeHeartbeatsMakeALease` | src/ragops/worker.py:113-121 | the default interval is a third of the lease, but never below one second |
| `MetricValues.OneRelevantDocument` | src/ragops/evaluation/retrieval_metrics.py:79-95 | with one relevant document at a rank: nDCG is the discount of that rank over that of the first, recall is 1 and the reciprocal rank its inverse, each up to its own cutoff |
| `MetricValues.TwoDocumentsReversed` | src/ragops/evaluation/retrieval_metrics.py:31-49 | with two relevant documents in the wrong order nDCG is the quotient of the grades' sums, weighted by the discounts |
| `MetricValues.RecallCounts` | src/ragops/evaluation/retrieval_metrics.py:52-64 | recall times the number of positively judged documents is how many of them the first ranks show |
| `Fusion.FusionOfOneList` | src/ragops/retrieval/fusion.py:14-21 | the fusion of one list keeps it and scores the hit at 0-based index i exactly 1/(k + i + 1) |
| `Fusion.FusionOfTwoLists` | src/ragops/retrieval/fusion.py:14-21 | with two lists a document scores the sum of the reciprocals written out over its ranks |
| `Fusion.FusionIsOrdered` | src/ragops/retrieval/fusion.py:18-21 | a document before another has a higher score, or the same and the lower identifier |
| `RetrievalPipeline.PromotionMeaning` | src/ragops/retrieval/pipeline.py:174-192 | at most `keep` documents move: exactly the best of the window, to the top, best first and equal ones as they stood; everyone else keeps score and order |
| `Statistics.PercentileBetweenRanks` | src/ragops/evaluation/reporting.py:49-59 | between two neighbouring ranks the percentile runs along the straight line from one value to the next |
| `Statistics.PercentileOfCounting` | src/ragops/evaluation/reporting.py:49-59 | the q-percentile of the numbers from 0 to n - 1 is q times n - 1 |
| `Statistics.IntervalCutsOffOneInForty` | src/ragops/evaluation/reporting.py:62-75 | the interval cuts off one resampled mean in forty at either end |
| `Statistics.MeanOneMore` | src/ragops/evaluation/reporting.py:43-46 | one value is its own mean, and each further value adds itself to the mean times the number of values |
| `ReportRules.LatencyOfCounting` | src/ragops/evaluation/reporting.py:288-302 | of durations evenly spread over 0 to n - 1 the median is half of n - 1 and the other percentile 95% of it |
| `ReportRules.OverallMeaning` | src/ragops/evaluation/reporting.py:254-286 | the label score is that of the stored labels under their names and the answers' labels, over all rows that have both |
| `Reporting.UnjudgedRowSays` | src/ragops/evaluation/reporting.py:194-207 | under a name no judge uses a row says its own score, or the cost of its answer if it has one |
| `Reporting.JudgedRowSays` | src/ragops/evaluation/reporting.py:201-203 | under a name one judge uses, with the default profile's prefix dropped, a row says that judge's score |
| `ReportContents.ReportedMeans` | src/ragops/evaluation/reporting.py:209-235 | a report holds each variant's mean on each required metric: the sum over its rows, divided by their number |
| `ReportContents.ReportedDifferences` | src/ragops/evaluation/reporting.py:109-152 | and for every two variants the difference of their means, significant exactly if its interval leaves out zero |
| `ReportContents.CompletedRunsReportTheirMeans` | src/ragops/evaluation/reporting.py:49-318 | both hold of the report of every completed run, whatever its history |
| `LabelScores.MacroF1IsMeanOverlap` | src/ragops/evaluation/answer_metrics.py:69-87 | macro-F1 is the mean over the three labels of twice the positions where the label is both right and claimed, over the number where it is right plus the number where it is claimed |
| `Calibration.KappaOfCounts` | src/ragops/evaluation/calibration.py:12-21 | the textbook form: 2(ad - bc) over (a+b)(b+d) + (c+d)(a+c) for the counts of the four kinds of item, and 1 if that is nothing |
| `Gate.LastMeanCounts` | src/ragops/evaluation/gate.py:24-30 | a measure is recorded exactly if some summary reports it, with the mean of the last one that does |
| `Pricing.MillionTokenPrices` | src/ragops/config.py:155-192 | a million tokens of each kind cost what the table says, cached and cache-writing ones the input price if it says nothing |
| `Pricing.CostFailsExactly` | src/ragops/config.py:155-192 | which error is raised, if any |
| `GenerationCaching.OneReplyIsFinal` | src/ragops/generation/repair.py:27-45 | if the prompt is not stored, any first reply but a schema error is final, after one call and with its own usage, unless it is a result the cache layer rejects |
| `GenerationCaching.SchemaErrorsAreRepairedOnce` | src/ragops/generation/repair.py:27-45 | a schema error is followed by exactly one more call, with the instruction added to the prompt, and both are charged |
| `GenerationCaching.StoredResultComesBack` | src/ragops/generation/cache.py:38-56 | a stored result comes back as it is, marked as a hit and without usage |
| `JudgeCaching.OneReplyIsFinal` | src/ragops/evaluation/judging.py:285-307 | if the prompt is not stored, any first reply but a schema failure is final, after one call and with its own usage, unless it is marked as a hit |
| `JudgeCaching.SchemaFailuresAreRepairedOnce` | src/ragops/evaluation/judging.py:285-307 | a schema failure is followed by exactly one more call, and both are charged |
| `JudgeCaching.StoredVerdictComesBack` | src/ragops/evaluation/judging.py:319-332 | a stored verdict comes back as it is, marked as a hit and without usage |
| `Answering.AnswersArePassedOn` | src/ragops/generation/service.py:58-136 | a generated answer is passed on as it is, with its contexts by rank, and is abstained, answered or a citation error exactly by its citations |
| `Answering.OutcomeIsDetermined` | src/ragops/contracts/generation.py:176-210 | the outcome chosen for a generated answer is the only one under which the response validator accepts it |
| `Answering.FailureOutcomesFit` | src/ragops/contracts/generation.py:176-210 | and a response to a failure is accepted under exactly the four outcomes of failures |
| `Answering.FailuresAreNamed` | src/ragops/generation/service.py:79-99 | a failure becomes an empty response that names it and carries its usage |
| `Answering.OccursInMeaning` | src/ragops/generation/validation.py:41-43 | a citation is quoted exactly if the answer can be cut into a part before it, itself and a part after it |
| `Prelude.StringLeMeaning` | src/ragops/evaluation/runner.py:36-51 | of two identifiers the first is the one that is a prefix of the other or has the lower character where they part |
| `Answering.KeptInOrder` | src/ragops/generation/validation.py:35-45 | the unknown and the unquoted citations are listed in the order of their first occurrence |

## Left out

- Floating-point and `Numeric(18, 8)` rounding and `log2`: exact reals and an arbitrary discount stand for them.
- SHA-256, JSON canonicalisation and prompt rendering: a hash is what it hashes, and the wording of the repair
  instruction is one symbol.
- Anomalies of PostgreSQL isolation below the transaction, and clock skew between workers: transactions are atomic and
  there is one clock. In particular a recount that overlaps a batch of another ingester is one step.
- The OpenAI client, sentence-transformers, BM25 and vector search: arbitrary results of the right shape.
- A query's database key and its external identifier are one name, as the dataset's uniqueness constraint makes them.
- Deleting datasets, queries or runs while a run is under way.
- The runner's own configuration checks before its error handler (src/ragops/evaluation/runner.py:84-90): the process just
  does not start.
- The nested loops of the runner are flattened into lists of work, `EvaluationPlan.Program` and `EvaluationPlan.WorkList`.
- Search inside the runner is any response; the pipeline and the metrics are proved on their own.
- Answer metrics, rationales and confidence levels: carried along or omitted. The runner stores a gold label as one of
  the three that exist; the report reads it by name and rejects any other.
- The runner's rows do not carry the timings of their searches; the report is proved for any timings.
- White space in blank-text checks is ASCII only.
- A baseline's metrics are one table keyed by variant and metric, so a variant without metrics cannot be written down.
- FastAPI, CLI, telemetry, configuration files, downloads, file writing and Markdown: plumbing.
- RunnerSolo.ConsistencyChecksNeverFail: says what a run returns and raises, not how long its providers take.
