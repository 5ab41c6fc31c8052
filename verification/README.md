# Record linkage service: verified model

The service links records of several data providers without seeing them. Each provider uploads
encodings, grouped in blocks; a run compares the encodings of every pair of providers block by
block, aggregates the similar pairs, and publishes groups, or two permutations and a mask.

This project models the linkage engine in Dafny and proves what it is meant to guarantee. Its
modules, by part of the system:

| part | modules |
|---|---|
| uploads, checks and encoding sizes as a concurrent protocol | `UploadProtocol`, `EncodingSizes`, `PartyCounts`, `SizeAgreement`, `WakeUp`, `UploadHistories`, `SecondRow`, `ProjectDatabase` |
| the life of a run | `RunLifecycle`, `RunStages`, `StartGuard`, `RunProgress`, `FinalStates`, `FailureThreat`, `LateFailure`, `AbandonedRun` |
| work packages: which entities are compared, and how many comparisons that is | `WorkPackages`, `Coverage`, `ComparisonTotals`, `ComparisonJobs` |
| fetching encodings on two paths | `BlockQueries`, `Fetch` |
| binary formats | `Bytes`, `CopyFormat`, `RecordFormat`, `RawStream` |
| storing uploads and counting blocks | `EncodingStore`, `UploadCounts`, `ProjectUploads` |
| aggregating result files | `MergeCost`, `Aggregation` |
| permutations and mask | `Permutation` |
| generator of overlapping test data | `OverlapGenerator` |
| shared | `Collections`, `Runs`, `Wrappers` |

Run `dafny verify dfyconfig.toml` to check everything.

## How the program is modelled

- Tables are maps and sequences, a query is a function of them with its order, and an update with
  a condition is one atomic step. A row lock that is not waited for is a try-lock.
- A protocol state holds the tables and a process for every request or task under way. A step is
  one committed transaction, one read, or one task being enqueued or delivered. Theorems about
  protocols are about every state of every interleaving. Check and pre-run tasks may be delivered
  any number of times; tasks are not lost.
- A request that posts a run first makes sure that no upload has failed, in a transaction of its
  own. It may have done so at any time before it inserts the run, so that step has no guard here.
- A run and the uploads of its project are two protocols. `FinalStates` runs them together, with
  queueing and failing as the steps they share, and with packages created only while two providers
  are done (backend/entityservice/tasks/comparing.py:60-62). `FailureThreat`, `LateFailure` and
  `AbandonedRun` are about both together, the other modules about one of them alone.
- Rows of one provider are listed in the order in which they were inserted. If a block name was
  recorded twice, the last row counts.
- What an update in place does is a method that is proved against a function or a predicate on
  values, and the theorems are about these.
- Random shuffles, the order in which a set is listed, generated names, and the sizes reported for
  streams are arbitrary choices: results hold for all of them.
- Two external functions are parameters or definitions with the contract the program relies on.
  The splitter of large blocks tiles its rectangle exactly, with tiles that are not empty
  (`Coverage.ExactSplitter`). The merge of two sorted files is the sorted merge of their pairs
  (`Aggregation.MergeSorted`). The hash of block names is any function.
- Exceptions and error returns are values of `Option`, or results of their own.
- The life of a run takes two facts from other modules: the sizes of its packages add up to the
  total (`ComparisonTotals.ComparisonsAreConserved`), and the number of contributed parties rises up
  to the number of parties (`WakeUp.ContributionsGrow`, `PartyCounts.CountsWithOneRow`).

## What turned out not to hold

- **A created run can be left behind, and a run can start too early.** Both counts that decide
  whether a run may start compare upload rows with parties. An upload that fails after inserting
  its row and is then repeated leaves two rows, which the schema allows. Then a run can be queued
  although a party has uploaded nothing (`SecondRow.StartsTooEarly`), and when all data is ready a
  run can be left created for good (`SecondRow.LostWakeUp`, `SecondRow.BlockedForGood`). The exact
  condition is the same for both: a check that goes ahead finds all data ready if and only if no
  provider has a second row (`PartyCounts.PassesTooEarlyIff`), and when all data is ready a check
  goes ahead if and only if no provider has a second row (`PartyCounts.ExtraRowBlocksChecks`). With
  one row for each provider, runs are queued only when every party has uploaded, in every history
  (`SizeAgreement.QueuedWithAllData`).
- **A run that has started too early can stay running for good.** While fewer than two providers are
  done, the task that creates its packages raises an error, and the handler of that error is not told
  which run has failed (backend/entityservice/tasks/run.py:48-51). Nobody works on the run any more:
  in no continuation is it completed, and it stays running unless a check fails all runs
  (`AbandonedRun.EarlyRunIsAbandoned`, `AbandonedRun.AbandonedForGood`).
- **`completed` and `error` are not final.** With one row for each provider they are, in every
  history: all checks of a project then come to the same conclusion about its encoding sizes, so
  that queued runs are not failed later (`FinalStates.FinalStatesStay`,
  `SizeAgreement.QueuedRunsAreNotFailed`). With a second row they are not. Of three parties, the
  first has two rows and the second has one; that makes three, and a run starts that compares these
  two. Once the third has described a raw upload, whose size is not known yet, another check counts
  three as well, rejects the sizes and fails all runs: also one that is completed
  (`LateFailure.CompletedRunFails`), or one that is about to be marked as complete and then is
  (`LateFailure.FailedRunCompletes`). The exact condition once all providers are done and no upload
  is under way: a completed run can still be failed if and only if some check has rejected sizes, or
  the sizes that a check has read or may come to read do not fit the size that the project has or
  that a check is about to record (`FailureThreat.CompletedCanFailIff`). While some provider is not
  done, it can be failed whenever the count of ready uploads equals the number of parties
  (`FailureThreat.OpenCanFail`).
- **A run can stay queued for good.** The pre-run task sets the cache before it commits the start of
  the run. If it crashes in between, every redelivered task ends at the cache. A queued run can
  still be started if and only if the cache does not know it, or a task is under way that has found
  so (`StartGuard.CanStartIff`, `StartGuard.LeftQueued`).
- **Progress can exceed its total.** A comparison task that is retried after it has reported its
  progress reports it again. Two successive statuses then fail the check of the end-to-end tests
  exactly when the counter of the later one is beyond the total
  (`RunProgress.StatusProgressesValidly`, `RunProgress.RetryOvershoots`).
- **The parser of the database's binary format does not stop at the end of the stream.** It stops
  if and only if the stream starts with a complete encoding, and yields empty rows for ever on any
  encoding that is cut off after its header (`CopyFormat.EndsOnEncodings`,
  `CopyFormat.CutOffNeverEnds`). Its documentation promises an assertion error instead.
- **An upload found invalid becomes ready.** A raw upload with a wrong encoding size is marked as
  invalid and then, by the next step of the same task, as ready, unless the task crashes in between;
  only the check before runs are queued finds it again (`WakeUp.InvalidUploadsBecomeReady`).
- **A single result file is not deduplicated**, nor is its order made strict; two or more are
  (`Aggregation.AllMerged`).
- **The two fetch paths agree only if no entity lists a block twice.** The schema allows it, the
  counts include it, and the path for ranges drops it (`Fetch.RangeIsDelivered`,
  `ProjectUploads.UploadsAreDescribed`).
- **Encoding ids are unique only for entity ids below 2^32** (`BlockQueries.LargeEntitiesCollide`).

## Model

| member | source | states |
|---|---|---|
| `WakeUp.NoLostWakeUp` | backend/entityservice/tasks/pre_run_check.py:21-45 | in every reachable state of every interleaving, a provider is in progress exactly when one request holds its lock; and if each provider has one upload row, the data of all parties is ready, no task is about to mark an upload as failed, and some run is still created, then some process is checking, triggering a check, or about to, whatever encoding sizes were uploaded |
| `WakeUp.QuietMeansNothingWaits` | backend/entityservice/views/run/list.py:46-49 | with one upload row each, all data ready and nothing under way, no run is left waiting |
| `WakeUp.StepStaysSound` | backend/entityservice/tasks/encoding_uploading.py:213-222 | every single step of a request, an upload task or a check keeps that nothing waits without someone to rouse it, and all that this depends on: lock exclusion, agreement of checks, and that the size of ready data is known |
| `PartyCounts.CheckPassesIffSettled` | backend/entityservice/utils.py:145-159 | with one upload row each, the count that lets runs start equals the number of parties exactly when every party is done and its data ready, and then the weaker count does too |
| `PartyCounts.ExtraRowBlocksChecks` | backend/entityservice/database/selections.py:91-102 | when all data is ready, each of the two counts equals the number of parties if and only if no provider has a second upload row |
| `PartyCounts.PassesTooEarlyIff` | backend/entityservice/tasks/pre_run_check.py:21-22 | when the count lets a check go ahead, all data is ready if and only if no provider has a second upload row |
| `WakeUp.ReadsSucceedWhileWaiting` | backend/entityservice/views/project.py:288-291 | while all data is ready in one row each, no read of the counts ends a process that would have runs picked up |
| `WakeUp.ReadsGoOnIff` | backend/entityservice/tasks/encoding_uploading.py:125-137 | with one upload row each, a finished request, and a task that has pulled data, go on to trigger a check exactly if every party has uploaded; a task that has read raw data, and a check, go on exactly if all data is ready |
| `SecondRow.BlockedForGood` | backend/entityservice/database/insertions.py:70-80 | from any state in which all data is ready, a provider has a second row, and no upload request, upload task, error record or check past its count is under way: in every continuation, however many runs are posted and checks triggered, no run is queued and created runs stay created |
| `SecondRow.StartsTooEarly` | backend/entityservice/database/selections.py:62-72 | an interleaving after which a run is queued although one of two parties has uploaded nothing |
| `SecondRow.LostWakeUp` | backend/entityservice/tasks/pre_run_check.py:21-22 | an interleaving that ends with all data ready, a created run and nothing under way, after which that run is never queued |
| `SizeAgreement.QueuedWithAllData` | backend/entityservice/tasks/pre_run_check.py:14-45 | in every history with one upload row each, runs are queued only when every party is done and has uploaded, and when all encodings have the size that the project expects, within its bounds and a multiple of eight |
| `SizeAgreement.QueuedRunsAreNotFailed` | backend/entityservice/tasks/pre_run_check.py:24-31 | in every history with one upload row each, runs that were queued are never failed by a check and runs that were failed never queued; a project does one or the other |
| `SizeAgreement.StepStaysOrderly` | backend/entityservice/tasks/pre_run_check.py:48-78 | every step keeps, with one upload row each: one process at most may still fill the row of a provider, whatever lets a check go ahead is there for good, and what each check has read and concluded about sizes is still right, whichever check sets the size of the project first |
| `WakeUp.InvalidUploadsBecomeReady` | backend/entityservice/tasks/encoding_uploading.py:204-217 | in every history, a raw upload whose encodings are out of bounds, or not of the size recorded for the project by then, or else of the one in its schema, has its rows marked as errors, and any other leaves them as they are; whatever happens in between, the same task makes all rows of the provider ready unless it crashes between its two steps |
| `UploadHistories.RecordedWhenAcceptable` | backend/entityservice/views/project.py:214-286 | in every history, a request that comes with its encodings records a row only if their size, when it took the lock, was within the bounds and the one recorded for the project, or else the one in its schema |
| `UploadHistories.DoneAfterStoring` | backend/entityservice/views/project.py:285-286 | in every history, a provider becomes done only by a request for it that has stored its data, or given it to a task, before |
| `UploadHistories.TasksComeFromRequests` | backend/entityservice/views/project.py:364-481 | in every history, a task that reads raw data was started by a request that had recorded a row for it, one that pulls data by a request that had not, each with the provider, the receipt and the data of that request |
| `UploadHistories.DoneHasRow` | backend/entityservice/tasks/encoding_uploading.py:225-233 | in every history, a provider that is done has an upload row, or a task is under way that will record one, of its data or of an error |
| `WakeUp.DoneStaysDone` | backend/entityservice/database/insertions.py:385-409 | a provider that is done stays done; a failed attempt always lets it try again; it may start an upload exactly when it is not done and no request holds its lock |
| `WakeUp.ContributionsGrow` | backend/entityservice/database/selections.py:62-72 | over any stretch of any run of the protocol, the number of contributed parties shown to users does not fall |
| `UploadProtocol.StepKeepsExclusive` | backend/entityservice/views/project.py:117-175 | whatever one request or task does next, success, rejection or unexpected error, a provider is in progress exactly when one request holds its lock |
| `UploadProtocol.LockKeepsExclusive` | backend/entityservice/views/project.py:214-286 | taking the lock, giving it back and finishing keep this |
| `RunLifecycle.RunsStartOnce` | backend/entityservice/database/insertions.py:363-382 | over all histories with duplicate checks and pre-run tasks, a run is queued at most once and started at most once, queued or running implies stage two or later, no stage is beyond the last of its type, and at most one chain of tasks works on it |
| `RunLifecycle.CompletesAtTheEnd` | backend/entityservice/tasks/mark_run_complete.py:8-14 | a run is marked as complete only in the last stage of its type, after every package has returned a result and all comparisons of the run are among them |
| `RunStages.CompletedRunIsWorkedOff` | backend/entityservice/tasks/comparing.py:531-552 | in every history, when a run is marked as complete its packages were gathered before; unless similarity scores are asked for, its counter was then cleared, and it was promoted, solved and saved, in that order; and if permutations are asked for, they were made after that |
| `RunStages.OnlyPermutedIfAsked` | backend/entityservice/tasks/permutation.py:36-50 | no run is permuted unless permutations are asked for, and none is solved if similarity scores are |
| `FinalStates.FinalStatesStay` | backend/entityservice/database/insertions.py:287-322 | in every history of a run and its project in which each provider has one upload row, a completed run stays completed and a failed run stays failed |
| `FinalStates.StepFailsForGood` | backend/entityservice/tasks/run.py:40-44 | unless all runs of the project are failed after it was queued, no process of a failed run is ever again in a position to complete it |
| `FinalStates.OwnFailureIsFinal` | backend/entityservice/tasks/comparing.py:363-372 | in every history of a run, with any number of second rows and checks: once one of its tasks has exceeded the limit of candidates, or raised an error that is handled, the run is failed and stays so |
| `FinalStates.AlwaysAgree` | backend/entityservice/tasks/pre_run_check.py:24-45 | in every history of a run and its project, the run is created exactly as long as the project has neither queued nor failed it |
| `LateFailure.CompletedRunFails` | backend/entityservice/database/insertions.py:312-322 | a history of a run and its project, with three parties and a second upload row, in which a check fails a completed run |
| `LateFailure.FailedRunCompletes` | backend/entityservice/database/insertions.py:287-296 | a history, with three parties and a second upload row, in which a check fails a run that is then marked as complete |
| `FailureThreat.CompletedCanFailIff` | backend/entityservice/tasks/pre_run_check.py:21-31 | for a completed run in any reachable state in which all providers are done and no upload is under way: some continuation fails it if and only if a check has rejected sizes, or the sizes that a check has read or may come to read are rejected under the size that the project has or that a check is about to record |
| `FailureThreat.OpenCanFail` | backend/entityservice/tasks/pre_run_check.py:48-66 | for a completed run in any reachable state in which some provider is not done and the count of ready uploads equals the number of parties, some continuation fails it |
| `FailureThreat.StepWithoutThreat` | backend/entityservice/tasks/pre_run_check.py:21-45 | once all providers are done, no upload is under way and the size of the project is recorded: if no check has rejected sizes or may come to reject some, no step fails the runs of the project, and every step leaves this so |
| `AbandonedRun.CannotPack` | backend/entityservice/tasks/comparing.py:60-62 | while fewer than two providers are done, the task that creates the packages of a run does nothing but stop |
| `AbandonedRun.CanPackIff` | backend/entityservice/database/selections.py:26-41 | packages can be created exactly if two different providers are done |
| `AbandonedRun.AbandonedForGood` | backend/entityservice/tasks/base_task.py:107-121 | a run that has started and whose tasks have stopped is completed in no continuation, and stays running as long as no check fails all runs |
| `AbandonedRun.EarlyRunIsAbandoned` | backend/entityservice/tasks/run.py:48-51 | a history in which a run starts while one of two providers is done, its task stops, and no continuation completes it |
| `StartGuard.CanStartIff` | backend/entityservice/tasks/run.py:18-46 | a queued run can still be started in some continuation if and only if the cache does not know it, or a pre-run task is under way that has found so |
| `StartGuard.LeftQueued` | backend/entityservice/tasks/run.py:43-46 | a history in which a pre-run task crashes after setting the cache, and no continuation starts the run |
| `StartGuard.CacheFollowsRun` | backend/entityservice/cache/active_runs.py:17-30 | in every history, a run that has started is in the cache from then on, and from the end of its last task on it is there as complete, whatever tasks are still under way |
| `RunLifecycle.StepKeepsInv` | backend/entityservice/tasks/run.py:19-52 | every step keeps: one process at most has passed the start guard, the row lock is held by it, stages, counters and packages fit its position |
| `RunLifecycle.NobodyStarted` | backend/entityservice/tasks/run.py:36-44 | a pre-run task that gets the row lock and finds the run queued is the first one to pass the guard |
| `RunLifecycle.PackagesChange` | backend/entityservice/tasks/comparing.py:356-372 | comparing, retrying, giving up and exceeding the candidate limit keep the counter equal to what has been counted |
| `RunProgress.StatusProgressesValidly` | e2etests/util.py:366-395 | any two successive statuses of a run, each put together from reads at different times, progress validly, unless retried tasks have taken the counter of the later one beyond the total; without such retries never otherwise |
| `RunProgress.WrongOrderIsInvalid` | e2etests/util.py:378-388 | given in the wrong order, two statuses are invalid if and only if the later one is in a later stage, or reports more contributions or comparisons in the same stage, unless its counter is beyond the total |
| `RunProgress.RelativeIsPart` | backend/entityservice/views/run/status.py:55-64 | the relative progress times the maximum is what has been achieved, and it is zero if the maximum is |
| `RunProgress.CounterIsExact` | backend/entityservice/cache/progress.py:34-58 | the counter is what has been counted plus what was counted again; when all packages have reported it is the total if and only if nothing was counted again |
| `RunProgress.CounterIsNeverZero` | backend/entityservice/cache/progress.py:47-58 | in every history, a counter that is there is not zero, so that no progress is reported before something was counted |
| `RunProgress.RunsMoveForward` | backend/entityservice/models/run.py:38-43 | stage, contributions and counter never fall, until the counter is cleared, after which it stays so |
| `RunProgress.RetryOvershoots` | backend/entityservice/tasks/comparing.py:410-413 | a history in which one retried task doubles the counter and the comparison of statuses fails |
| `ProjectDatabase.Project.LockForUpload` | backend/entityservice/database/insertions.py:385-409 | the lock is granted unless the provider is done or in progress, and granting it is the lock step of the protocol |
| `ProjectDatabase.Project.ReleaseLock` | backend/entityservice/views/project.py:269-282 | after a failed upload the provider is as if it had not started if the request was told what is wrong and its endpoint allows to repeat it, and in error otherwise: the failing step of the protocol |
| `ProjectDatabase.Project.MarkDone` | backend/entityservice/views/project.py:285-286 | marking a provider as done is the finishing step of the protocol |
| `ProjectDatabase.Project.PartiesContributed` | backend/entityservice/database/selections.py:62-102 | both counting queries, and that comparing them with the number of parties is the guard of the protocol |
| `ProjectDatabase.Project.CheckAndSetProjectEncodingSize` | backend/entityservice/tasks/pre_run_check.py:48-78 | the size asked is the one recorded for the project, or else the one in its schema, or else (also if that is zero) the one in the first row; accepts exactly when there are uploads and all have it, within its bounds and a multiple of eight; finds a mismatch exactly when one has another; comes to the conclusion, records the size and invalidates the uploads that checks of the protocol do |
| `EncodingSizes.AgreeIffFit` | backend/entityservice/tasks/pre_run_check.py:48-78 | the same of the conclusion that checks of the protocol reach, for any sizes, project and schema |
| `EncodingSizes.MismatchIsFirst` | backend/entityservice/tasks/pre_run_check.py:62-66 | the provider named has a row of another size than the one asked, and all rows of earlier providers have that size |
| `ProjectDatabase.Project.GetCreatedRunsAndQueue` | backend/entityservice/database/insertions.py:363-382 | returns exactly the created runs, each once, and leaves them queued and all other runs as they were |
| `ProjectDatabase.Project.CheckForExecutableRuns` | backend/entityservice/tasks/pre_run_check.py:14-45 | if all data is ready and every upload has the size that is asked and that is in order, exactly the created runs are queued, progress one stage and are enqueued once; if encodings do not fit all runs fail; otherwise nothing changes |
| `ProjectDatabase.Project.PrerunCheck` | backend/entityservice/tasks/run.py:14-52 | starts a run exactly if it is not cached, its row is not locked and it has not started; its comparisons are enqueued at most once |
| `ProjectDatabase.QueueingIsAStep` | backend/entityservice/tasks/pre_run_check.py:35-45 | what queueing does to the tables, with the size that the check records, is the last step of an accepting check in the protocol |
| `ProjectDatabase.InvalidatingIsAStep` | backend/entityservice/tasks/pre_run_check.py:62-66 | marking a provider's uploads as invalid is a step of a failing check in the protocol |
| `ProjectDatabase.FailingIsAStep` | backend/entityservice/database/insertions.py:312-322 | what failing all runs does to the tables, with the size that the check records, is the last step of a failing check in the protocol |
| `WorkPackages.GetCommonBlocks` | backend/entityservice/tasks/comparing.py:173-187 | each block name shared by two providers is listed once for the pair in project order, and nothing else |
| `WorkPackages.CreateWorkPackages` | backend/entityservice/tasks/comparing.py:102-170 | the packages hold the chunks of all blocks in order, none lost or repeated; none is empty; bundles stay within the comparison and chunk limits and consist of full blocks; without oversized blocks a package is closed only for lack of room; each side of each chunk carries the position of its own provider in the project |
| `WorkPackages.SplitBlock` | backend/entityservice/tasks/comparing.py:144-155 | an oversized block becomes one package for each tile, in order: of one chunk, with the ranges of the tile on the side of either provider, its block there, and its position in the project |
| `WorkPackages.LastIndex` | backend/entityservice/tasks/comparing.py:245-257 | the dataset index given to a provider is its position in the project, and the last one if it were listed twice |
| `Coverage.ComparedOncePerSharedBlock` | backend/entityservice/tasks/comparing.py:135-187 | over all packages, two entities of different providers are compared once for each block name they share, in project order, and never otherwise |
| `ComparisonJobs.UploadedPairsAreComparedOnce` | backend/entityservice/tasks/comparing.py:45-99 | the same in terms of the rows that uploads have stored, counted over the ranges of all packages |
| `ComparisonJobs.FetchedPairsAreComparedOnce` | backend/entityservice/tasks/comparing.py:306-351 | and counted over what is fetched: over the deliveries of all packages, two entities are delivered to be compared once for each block name under which both are stored, and never otherwise |
| `ComparisonJobs.ProjectPairsAreComparedOnce` | backend/entityservice/tasks/comparing.py:45-99 | from uploads to deliveries: after one upload by each provider in which no entity lists a block twice, two entities are compared once for each hashed block name that their uploads list for both, the earlier provider first, and never otherwise |
| `ComparisonJobs.LinkUploads` | backend/entityservice/tasks/comparing.py:45-99 | storing all uploads, creating the packages, and fetching and comparing each of them: the comparisons counted are the total shown to users, any two entities are compared once for each hashed block name that their uploads list for both, the earlier provider first, and never otherwise, and each side of each chunk carries the position of its own provider |
| `ComparisonJobs.CreateComparisonJobs` | backend/entityservice/tasks/comparing.py:45-99 | from block metadata to a schedule: all common blocks, packed |
| `ComparisonJobs.PackagesAreFetchable` | backend/entityservice/tasks/comparing.py:308-321 | every package of a schedule suits the path that its number of chunks selects: ranges are not empty and lie in their blocks, and several chunks are all full blocks |
| `ProjectUploads.UploadsAreDescribed` | backend/entityservice/database/insertions.py:95-132 | after one upload by each provider, block metadata describes the stored rows if and only if no entity lists a block twice |
| `ProjectUploads.UploadAll` | backend/entityservice/tasks/encoding_uploading.py:50-122 | into empty tables, one upload by each provider: all succeed when records are packed with ids below 2^32 and block ids do not run out; then block ids are unique, fetching finds the record of every row, counts and members of every block are those of the uploads, and metadata describes the rows if and only if no entity lists a block twice |
| `ComparisonJobs.ComparePackage` | backend/entityservice/tasks/comparing.py:326-351 | no fetched chunk is empty, and the comparisons counted for a package are those the scheduler planned |
| `ComparisonJobs.CompareAll` | backend/entityservice/cache/progress.py:13-31 | the comparisons counted over all packages are the total shown to users, and every chunk is delivered with what its ranges stand for |
| `ComparisonJobs.DeliveredIsInRange` | backend/entityservice/tasks/comparing.py:345-349 | the entity ids that results refer to are those of the range |
| `ComparisonTotals.ComparisonsAreConserved` | backend/entityservice/database/selections.py:231-261 | the areas of all chunks of all packages add up to the total that is computed by block name over pairs of counts |
| `ComparisonTotals.GetTotalComparisons` | backend/entityservice/database/selections.py:231-261 | the nested sums over rows and counts |
| `ComparisonTotals.PairSumFormula` | backend/entityservice/database/selections.py:231-261 | twice the sum over pairs, and the squares, make up the square of the sum |
| `ComparisonTotals.PairSumOfPermutation` | backend/entityservice/database/selections.py:238-259 | the order in which counts are collected does not matter |
| `ComparisonTotals.BlockTotal` | backend/entityservice/tasks/comparing.py:144-155 | the tiles of a block have the area of the block |
| `ComparisonTotals.PackageBound` | backend/entityservice/tasks/comparing.py:163-166 | without oversized blocks and below the chunk limit, m packages satisfy (m - 1) * aim <= 2 * comparisons |
| `BlockQueries.EncodingIdsKeepOrder` | backend/entityservice/database/util.py:167-173 | below 2^32, encoding ids are injective over providers and entities and ascend with the entity |
| `BlockQueries.LargeEntitiesCollide` | backend/entityservice/database/util.py:167-173 | an entity id collides with one of a later provider if and only if it is at least 2^32 |
| `BlockQueries.MembersAreSorted` | backend/entityservice/database/selections.py:288-308 | the entity query lists exactly the entities of the block in ascending order |
| `BlockQueries.ChunkDelivers` | backend/entityservice/database/selections.py:356-374 | the query for given entities delivers the record of each of them once, in ascending order |
| `BlockQueries.OrderedIffStrict` | backend/entityservice/database/selections.py:365-372 | that is the list asked for exactly if it ascends strictly |
| `BlockQueries.MultipleBlocksDeliver` | backend/entityservice/database/selections.py:377-395 | the join delivers, for each block asked for, its entities in order with their own records |
| `Fetch.GetEncodingChunk` | backend/entityservice/encoding_storage.py:116-124 | the entities of a range, each once in ascending order with its own encoding, through two queries and the binary formats; an empty range is an error |
| `Fetch.AllEncodingBlockIds` | backend/entityservice/database/selections.py:288-308 | without a limit that cuts it off, the query lists in ascending order the entities with a row in the block, or in any block if the block id is zero |
| `Fetch.BlockValues` | backend/entityservice/encoding_storage.py:142-161 | grouping rows in order yields for every block exactly its rows; no rows at all, or a row that is no record, are errors |
| `Fetch.GetEncodingsOfMultipleBlocks` | backend/entityservice/database/selections.py:377-395 | the rows of the join survive the binary format |
| `Fetch.GetChunkOfEncodings` | backend/entityservice/database/selections.py:356-374 | so do single records |
| `Fetch.GetEncodingChunks` | backend/entityservice/encoding_storage.py:127-173 | both sides of every chunk get their whole block; fails exactly if one of the blocks is empty |
| `Fetch.RangeIsDelivered` | backend/entityservice/encoding_storage.py:116-124 | the path for a range delivers it unchanged if and only if no entity is listed twice in it |
| `Fetch.BlockIsDelivered` | backend/entityservice/encoding_storage.py:165-171 | the path for whole blocks delivers a range if and only if it is the whole block |
| `Fetch.FetchPackage` | backend/entityservice/tasks/comparing.py:306-322 | on either path, each side of each chunk of a scheduled package gets the entities of its range in ascending order, each with its own encoding |
| `Bytes.NumberRoundTrip` | backend/entityservice/database/util.py:153-159 | numbers in network byte order are read back |
| `Bytes.PlaceValue` | backend/entityservice/database/util.py:153-159 | earlier bytes are the high ones: bytes followed by k others count 256 to the power of k times, and one byte is its own value |
| `CopyFormat.ParseEncoded` | backend/entityservice/database/util.py:138-164 | rows without nulls that are encoded as the "Binary Format" section of the COPY documentation says are parsed again, rows of one field unwrapped, and bytes after the trailer stay unread |
| `CopyFormat.EndsOnEncodings` | backend/entityservice/database/util.py:151-155 | the parser ends if and only if the stream starts with a complete encoding |
| `CopyFormat.EndedWasEncoded` | backend/entityservice/database/util.py:151-164 | when it ends, what it has read is the encoding of the rows it has yielded |
| `CopyFormat.CutOffNeverEnds` | backend/entityservice/database/util.py:151-160 | an encoding cut off in its header is rejected, and one cut off anywhere later makes the parser yield rows for ever |
| `CopyFormat.NoProperPrefix` | backend/entityservice/database/util.py:151-155 | no encoding is a proper prefix of another |
| `CopyFormat.NextRow` | backend/entityservice/database/util.py:152-164 | one step of the generator yields the next row and leaves fewer bytes unread, until the trailer; at the end of the stream it yields an empty row and stays there; the first two bytes, hi and lo, say that 256 * hi + lo fields follow, or that none does if that is 65535, and the next four say likewise how long the first field is |
| `CopyFormat.FieldIsRead` | backend/entityservice/database/util.py:158-160 | every field: four bytes a, b, c, d give its size ((a * 256 + b) * 256 + c) * 256 + d, and that many bytes are read, or as many as there are |
| `CopyFormat.RowIsParsed` | backend/entityservice/database/util.py:152-164 | every row: two bytes hi and lo announce 256 * hi + lo fields, and 65535 ends the parse before the bytes that follow |
| `CopyFormat.HeaderIff` | backend/entityservice/database/util.py:144-149 | the stream is parsed exactly if it starts with the nineteen bytes of a header without flags and without an extension |
| `CopyFormat.ParseStream` | backend/entityservice/database/util.py:138-164 | advancing the stream step by step computes the parse |
| `RecordFormat.UnpackPacked` | backend/entityservice/serialization.py:37-76 | a packed record is read back, with the same encoding if and only if that has the right size |
| `RecordFormat.PackUnpacked` | backend/entityservice/serialization.py:74-76 | only the packing of a filter unpacks to it |
| `RecordFormat.PackFilters` | backend/entityservice/serialization.py:57-71 | packing fails exactly if an id is 2^32 or more; otherwise a record is the four bytes of its id, the high one first, and the encoding, cut off or filled up with zeros, and it unpacks to that |
| `RecordFormat.UnpackFilters` | backend/entityservice/serialization.py:79-102 | unpacks records in order, each to the id that its first four bytes stand for and to the bytes after them, up to the one that reaches the limit; fails exactly if one of them has the wrong length |
| `RawStream.IterRawStream.ReadInto` | backend/entityservice/utils.py:67-77 | what is put in the buffer and what remains are what remained before; zero means the end of all chunks or a buffer without room; the rest of the buffer is untouched |
| `RawStream.ReadWithBuffers` | backend/entityservice/utils.py:55-77 | over any buffer sizes, outputs and remainder concatenate to what was there, and an empty output means the end |
| `RawStream.ReadAll` | backend/entityservice/utils.py:55-77 | reading to the end yields all chunks in order, empty ones included |
| `EncodingStore.EstimateGroupSize` | backend/entityservice/encoding_storage.py:105-113 | the size is rounded up, and at least one |
| `EncodingStore.Grouper` | backend/entityservice/encoding_storage.py:67-71 | groups of equal length hold all items in order, and only the last is filled up |
| `EncodingStore.Transpose` | backend/entityservice/encoding_storage.py:74-89 | the three lists are the columns of the items that are present |
| `EncodingStore.Tables.InsertEncodingsIntoBlocks` | backend/entityservice/database/insertions.py:95-132 | inserts a record for each entity and a row for each of its blocks; fails, inserting nothing, exactly if an encoding id is taken or a block unknown |
| `EncodingStore.Tables.StoreEncodings` | backend/entityservice/encoding_storage.py:92-102 | batching loses, repeats and reorders nothing, and fails as a whole |
| `EncodingStore.Tables.InsertBlockingMetadata` | backend/entityservice/database/insertions.py:50-67 | every counted block name gets a fresh id of its own and its count, on top of what the provider had, and other providers keep theirs; fails, recording nothing, exactly if block ids run out |
| `UploadCounts.CountBlocks` | backend/entityservice/views/project.py:441-446 | the counts are the occurrences of hashed block names |
| `UploadCounts.StoredBlocks` | backend/entityservice/tasks/encoding_uploading.py:56-63 | a block has as many rows as its name occurs, and distinct entities exactly if none lists it twice |
| `UploadCounts.Upload` | backend/entityservice/tasks/encoding_uploading.py:50-122 | counting first and storing afterwards never misses a block id, every count is the number of rows stored for its block, fetching finds every record and other providers are unaffected, also after a failed attempt that has left metadata behind; fails exactly if an encoding id is taken or block ids run out, and then stores nothing |
| `UploadCounts.UploadKeepsSound` | backend/entityservice/encoding_storage.py:46-64 | packed records are stored such that fetching finds the record of every row |
| `UploadCounts.OtherProvidersUnchanged` | backend/entityservice/database/insertions.py:128-132 | an upload leaves the blocks of other providers as they are |
| `UploadCounts.MembersCount` | backend/entityservice/database/selections.py:288-308 | the entity query lists an entity as often as it has rows |
| `MergeCost.SmallestFirst` | backend/entityservice/tasks/comparing.py:516-520 | any order of merges can be rearranged, at no extra cost, to merge the two smallest files first |
| `MergeCost.MergeTwoSmallest` | backend/entityservice/tasks/comparing.py:516-520 | merging the two smallest, then the rest as cheaply as possible, is as cheap as possible |
| `Aggregation.MergeStreams` | backend/entityservice/tasks/comparing.py:449-458 | the merge of two result files holds what both hold, after one header, in the order of ranks |
| `Aggregation.MergeKeepsAll` | backend/entityservice/tasks/comparing.py:453-455 | every pair is there as often as in both files together, and one header instead of two |
| `Aggregation.UniqueValues` | backend/entityservice/tasks/comparing.py:475-483 | adjacent repetitions are dropped and nothing else: same items, strictly increasing if the input is sorted, unchanged if it is strict already |
| `Aggregation.CollectFiles` | backend/entityservice/tasks/comparing.py:494-510 | collects a file for each report that found pairs; succeeds exactly if every report is there, and has a size and a name if it found pairs and neither of them otherwise; and which report is an error |
| `Aggregation.PopLeast` | backend/entityservice/tasks/comparing.py:517-518 | takes out an entry that has the smallest number, then the smallest size, then the smallest name |
| `Aggregation.ObjectStore.MergeFiles` | backend/entityservice/tasks/comparing.py:449-472 | stores the union of two files without duplicates, reported with the sum of their numbers, removes the two, and is the one merge added to the log of merges |
| `Aggregation.ObjectStore.MergeAll` | backend/entityservice/tasks/comparing.py:511-520 | one file takes the place of all: the union of their items, after one header and in strictly rising order of ranks unless there was one file only, and the sum of their numbers; the merges it has performed lead from the files to that one, no order of merging two at a time costs less than they did, and no other merges that lead from these files to one spend less |
| `Aggregation.LogIsAnOrder` | backend/entityservice/tasks/comparing.py:511-520 | any merges that lead from the files to one, however they are interleaved, are an order of merging two at a time, and spend exactly what that order costs |
| `Aggregation.AggregateComparisons` | backend/entityservice/tasks/comparing.py:492-528 | the same over all reports, none included; an error leaves every file alone and merges nothing, and the number recorded bounds what the file holds |
| `Permutation.PermuteMappingData` | backend/entityservice/tasks/permutation.py:57-166 | for all shuffles, no index or pop fails if and only if the groups link indices below one size and indices below the other one to one, whatever the dataset numbers; then both lists are permutations, the two records of each group, in whichever order it lists them, share a position below the smaller size, the one of the lower dataset (or of the lower index) in the first permutation, and the mask marks exactly these |
| `Permutation.MatchingIff` | backend/entityservice/tasks/permutation.py:93-101 | what one to one means: every group has two records, both below the size of their side, and no two groups share a record on either side |
| `Permutation.FillIn` | backend/entityservice/tasks/permutation.py:125-150 | the list of remaining positions suffices exactly if there are as many as indices without one, and these get different ones |
| `Permutation.EnoughLeft` | backend/entityservice/tasks/permutation.py:111-121 | it suffices exactly if the linked indices are distinct and within the dataset |
| `Permutation.ConvertMappingToList` | backend/entityservice/utils.py:181-191 | a list exactly if the keys are the first numbers, with their values in order |
| `Permutation.MaskTellsLinks` | e2etests/tests/test_results_correctness.py:76-91 | after inverting both permutations, the mask is one exactly where some group holds the two records found there, the one of the lower dataset on the first side; where it is zero no group links either of them, and beyond it neither |
| `Permutation.OneForEachGroup` | backend/entityservice/tasks/permutation.py:88-109 | the mask has as many ones as there are groups |
| `Permutation.ApplyPermutation` | e2etests/tests/test_results_correctness.py:112-116 | every item is at its new position |
| `Permutation.InverseOfPermutation` | e2etests/tests/test_results_correctness.py:119-126 | applied to the identity this gives the inverse |
| `Permutation.InverseTwice` | e2etests/tests/test_results_correctness.py:119-126 | which undoes the permutation from both sides |
| `OverlapGenerator.Generate` | e2etests/util.py:92-106 | for any targets, either every group of datasets shares exactly its target, or no family of datasets meets the targets |
| `OverlapGenerator.GenerateOverlappingData` | e2etests/util.py:73-119 | an error is raised if and only if no family of datasets overlaps as asked; otherwise every group of k datasets shares the smallest of their sizes times the overlap to the power of k - 1, cut off to a whole number: so each dataset has the size asked for, and any two share their overlap |
| `OverlapGenerator.MeetsIffOverlapping` | e2etests/util.py:97-99 | meeting the targets that the generator computes is to overlap in this way, for any overlap |
| `OverlapGenerator.PowerOfSum` | e2etests/util.py:97 | the power applied is multiplicative in its exponent; its first power is the number itself |
| `OverlapGenerator.SharedWithAnyDetermined` | e2etests/util.py:76-89 | how many shared records lie in further datasets is determined by the larger groups |
| `OverlapGenerator.TooLarge` | e2etests/util.py:101-103 | when an intersection is too large already, no family meets the targets |
| `OverlapGenerator.TopUp` | e2etests/util.py:104-106 | topping up one group meets its target and keeps all targets met before |

## Left out

- The similarity computation, the limit of candidates for each chunk, and the solver: external or floating point. Comparing stands for counting comparisons.
- Project and run deletion, cache expiry, server crashes in the middle of an upload, and loss of tasks.
- The `error` state that a background upload of external data writes when storing fails (backend/entityservice/tasks/encoding_uploading.py:117-120): the exception that follows rolls it back.
- RunLifecycle.RunsStartOnce: assumes that the chain of tasks of a started run is delivered once; the chain is one process.
- RunProgress.StatusProgressesValidly: assumes one upload row for each provider, for the progress of the first stage to stay within its bounds.
- WakeUp.NoLostWakeUp: assumes one upload row for each provider, which the schema does not enforce; without it the statement is false. It says nothing while the task that marks an upload as failed is under way, which takes the data's readiness back (backend/entityservice/tasks/encoding_uploading.py:225-233).
- Aggregation.ObjectStore.MergeAll: the heap is a sequence from which an entry that sorts first is taken; its internal order is not modelled.
- WorkPackages.CreateWorkPackages: chunks are values, not dictionaries that are completed in place; the library's own dataset indices, which are overwritten, do not appear.
- Fetch.GetEncodingChunks: block ids are collected in sets, because the query only tests membership in their list; results are returned, not written into the chunks.
- ProjectUploads.UploadAll: one upload by each provider, into empty tables; what a failed attempt leaves behind is part of `UploadCounts.Upload` only.
- FailureThreat.OpenCanFail: goes one way only; while a provider is not done, or a background upload is under way, later uploads can change the counts in both directions.
- FinalStates.FinalStatesStay: assumes one upload row for each provider; without it the statement is false.
- RawStream.ReadAll: the buffered reader that wraps the raw stream (backend/entityservice/utils.py:80-87) is part of the standard library.
- Permutation.PermuteMappingData: the results are returned, not inserted in tables.
- OverlapGenerator.GenerateOverlappingData: exact real numbers instead of floating point; records are numbers, and neither the encodings drawn for them nor the shuffling of each dataset (e2etests/util.py:121-127) is modelled.
- ProjectDatabase.Project.CheckForExecutableRuns: one check without interleaving; interleavings are the subject of the protocols.
- Base64, JSON parsing, file names, encoding bytes drawn at random, HTTP views beyond locking, releasing and triggering.
- Page sizes and cursors of queries, and the connection pool.
