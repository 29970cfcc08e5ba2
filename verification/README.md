# Verified model of Flotilla

Flotilla runs batch jobs. A run is stored in Postgres, announced on SQS, launched on Kubernetes or
EMR by submit workers, followed by pollers and event handlers that write back whatever they last
read, recycled by a retry worker and killed by a terminate fan-out. This project models that life
cycle, and the smaller algorithms around it, and proves what they guarantee: over all inputs, all
interleavings and all failures that the model names. Where the code does not meet a promise, the
exact condition under which it does is proved instead, with an example of the failure.

| file | what it covers |
|---|---|
| `Statuses.dfy` | the rule by which a stored status absorbs a written one |
| `Commons.dfy` | optional values and the resource bounds |
| `RunRecords.dfy` | merging an update into a stored run, and what stale copies undo |
| `Lifecycle.dfy` | store, queue, back ends and workers as a state machine, one atomic effect per step |
| `LifecycleInvariants.dfy` | what every step keeps; no run is lost; what can still happen |
| `LifecycleLimits.dfy` | which single failure loses a run; when a stopped run is launched after all |
| `Workers.dfy` | the worker loops as code over that state machine, interrupted anywhere by the others |
| `EmrEvents.dfy` | EMR job events under duplication, reordering and concurrent handlers |
| `TerminateFanout.dfy` | the bounded channel and its one-job goroutines |
| `LogPaging.dfy` | the two log readers, polled over files that stay or grow |
| `Resources.dfy` | estimates, defaults, bounds, and the loop from out-of-memory kill to next request |
| `MergeMaps.dfy` | the recursive merge of default payloads, in place in a heap of maps |
| `CloudTrail.dfy` | batch-wise de-duplication of CloudTrail records |
| `WorkerPool.dfy` | keeping the wanted number of workers of each type |
| `Templates.dfy` | version numbers of templates |
| `Environment.dfy` | the environment variables a container gets |

How to read the models:

- A call into the store is one atomic step, as the row lock of `UpdateRun` makes it. The queue keeps
  every message that was ever sent; any message may be delivered at any time, again and again, even
  after its deletion, which allows more than SQS does. Back ends answer as they like, except that a
  Kubernetes job name cannot be created twice while the job is there.
- Submit workers may crash between any two steps. The store, the queue and the engine may fail
  wherever the code handles a failure. What counts for a run is counted per attempt: a NEEDS_RETRY
  written to it ends the attempt, and what a back end has accepted before, or an executable found
  missing before, no longer covers it. `Slip` in `Lifecycle.dfy` lists the steps that can lose a run.
  `StepLosesIff` says exactly when they do, and `SafeIffNoSlips` that none of the eight kinds can be
  allowed. Two of them need no failing call: submitting a recycled run whose old job is still in the
  cluster ("already exists" passes for success), and storing a QUEUED read earlier over NEEDS_RETRY.
- Methods in `Workers.dfy` take the others' moves as an argument, one list for each pause between
  two effects, and carry out those that are possible at the time, careful or not. Their contracts
  hold for every choice of those moves.
- Maps that Go iterates over in random order are iterated over in an arbitrary order here, and the
  contracts hold for each.

Where code and comments differ, the model follows the code:

- The EKS log reader returns the line count plus one as its cursor at the end of a file, so the
  first line appended afterwards is skipped (`LogPaging.NothingSkippedIff`).
- `FetchUpdateStatus` writes the memory limit over the memory request it has just set
  (`Resources.PollingRaisesRequestToLimit`).
- The submit worker acknowledges a message whatever error `GetRun`, `GetDefinition` or
  `GetTemplateByID` gives, not only if the run or its executable is missing, and also after a failed
  `UpdateRun`; each of these can lose a run.
- `MergeMaps` reports a failed cast only for the default value, because the second `ok` replaces the
  first; a scalar of the user against a default map with entries writes into a nil map instead.
- The retry worker's and the termination's writes need no lock: nothing here relies on the Redis
  lock of the status worker, which several workers can hold at once.

Where the model leaves room that the code as written does not have: `INSERT INTO template`
(state/pg_state_manager.go:1462-1468) names thirteen columns and fifteen values, and the table asks
for a container name that no insert gives, so every insert fails. The query before it selects a
column for which templates have no field. Whether query and insert succeed is an input of the model;
`Templates.NothingIsStoredAsWritten` is what follows if they never both do, and the other results
hold for every pattern of failures.

## Model

| member | source | states |
|---|---|---|
| Statuses.ReplayIsHighest | state/models.go:625-649 | the status left by any history of writes is exactly the valid status latest in the life QUEUED, PENDING, RUNNING, STOPPED that was written since the last NEEDS_RETRY, in both directions |
| Statuses.WindowByPosition | state/models.go:639-641 | the part of a history that counts, characterised by positions: no NEEDS_RETRY comes after |
| Statuses.HighestIsUnique | state/models.go:631-637 | a set of statuses has at most one highest one, so the join is well defined |
| Statuses.OrderAndRepetitionDoNotMatter | state/models.go:631-649 | two histories without NEEDS_RETRY with the same set of statuses end in the same status |
| Statuses.MergeNeverLowers | state/models.go:625-649 | except for NEEDS_RETRY a write leaves the status or moves it forward in that life; STOPPED absorbs everything; validity is kept |
| Statuses.LaterStatusWins | state/models.go:631-649 | of two different statuses of that life the later one is stored, whichever is written first |
| Statuses.RetryAndOthers | state/models.go:631-649 | NEEDS_RETRY overrides everything and is overridden by every status of the life; a status outside the table neither overrides nor is overridden |
| RunRecords.Record.UpdateWith | state/models.go:478-650 | field after field, tested as its kind asks for and written in place, the run becomes the merge of the update; what that says about each field is the next row |
| RunRecords.FieldAfter | state/models.go:478-650 | after the merge a text, a command, a hash or a record list is what it was if the update has nil or an empty one, any other pointer is what it was if the update has nil, the deadline is always what it was; everything else is what the update says |
| RunRecords.UpdateRun | state/pg_state_manager.go:624-788 | the stored row after one locked read, merge and UPDATE; what that says about each column is the next row |
| RunRecords.StoredColumn | state/pg_state_manager.go:624-788 | run id, user, task_type and command_hash stay; every other column is what the update says unless it says nothing, and else what was stored, where a NULL text or executable becomes an empty string; the status is merged |
| RunRecords.WhatReadersGet | state/pg_queries.go:117-160 | nobody reads the user, nor a NULL of a text or of the executable; everything else is read as stored |
| RunRecords.LastWriteWins | state/pg_state_manager.go:624-788 | after any updates a stored column reads exactly as the last update that says something about it said, empty strings and nil saying nothing |
| RunRecords.UnspokenStays | state/pg_state_manager.go:692-733 | a column that no update speaks about, or that the UPDATE does not set, reads as before |
| RunRecords.StaleCopyReverts | state/pg_state_manager.go:624-788 | a worker writing back the row it had read: in every column what others stored since survives if and only if the copy is blank there or agrees, and otherwise the copy comes back; when the status survives |
| RunRecords.WritesCommuteIff | state/pg_state_manager.go:624-788 | two updates may come in either order, whatever is stored, if and only if they agree on every stored column on which both speak and neither takes back the other's status by NEEDS_RETRY |
| LifecycleInvariants.StepKeepsSound | worker/submit_worker.go:58-188 | every step of every actor, failing or not, keeps the protocol invariant over rows, queue, cloud and all actors |
| LifecycleInvariants.StoredStatusIsHighestWritten | state/pg_state_manager.go:624-690 | over every interleaving of row-locked updates with stale snapshots, each stored status is the highest written since the last NEEDS_RETRY |
| LifecycleInvariants.OneJobPerRun | execution/engine/eks_engine.go:127-133 | the books of the cluster, which refuses a second job of the same name: creations exceed deletions by one exactly while there is a job; how many creations the workers can make is `JobsToCome` |
| LifecycleInvariants.StatusNeverFallsBack | state/models.go:639-649 | between NEEDS_RETRY writes every schedule leaves a stored status or moves it forward in its life, so a worker that loses with "already exists" cannot undo the winner; STOPPED is final |
| LifecycleInvariants.LivesGoForward | state/models.go:631-649 | over every schedule that does not send it to retry, a run stored at some position of QUEUED, PENDING, RUNNING, STOPPED is afterwards at that position or a later one |
| LifecycleInvariants.OnlyRequestsSendToRetry | worker/status_worker.go:133-200 | no schedule brings a run to NEEDS_RETRY unless the API wrote it; workers, pollers and handlers only repeat it |
| LifecycleInvariants.RetriesWereAskedFor | worker/retry_worker.go:54-56 | in every reachable state a retry worker holds at most 25 runs, all of them EKS runs that were sent to retry |
| LifecycleInvariants.RetryableLeavesNoTrace | execution/engine/eks_engine.go:127-144 | after a retryable error store and queue are as before, also if the job was created, and the worker can only take a message again |
| LifecycleInvariants.AnswerDecidesStatus | worker/submit_worker.go:154-179 | a run that is still QUEUED when the answer is stored becomes STOPPED exactly if it was refused, RUNNING exactly if the job was created, and stays QUEUED otherwise |
| LifecycleInvariants.StepLosesIff | worker/submit_worker.go:69-187 | a step loses a run if and only if it is a slip about that run and nothing else covers it in this attempt: the enqueue, the read of the row or of the executable, or the write fails or an old job is met while it is QUEUED, or QUEUED is written over its NEEDS_RETRY by anyone but the retry worker |
| LifecycleInvariants.StepLosesNothing | worker/submit_worker.go:69-187 | a step without a slip loses no run, recycled ones included |
| LifecycleInvariants.EveryLossIsASlip | worker/retry_worker.go:67-78 | in every schedule, if a run is lost at the end, some step was a slip about it while nothing else covered it |
| LifecycleInvariants.NoRunIsLost | worker/submit_worker.go:69-187 | in every state of every schedule without slips, a QUEUED run has in its current attempt a message nobody will throw away, an enqueue to come, a started job, or an executable reported missing |
| LifecycleInvariants.DeliveryLaunches | worker/submit_worker.go:89-187 | a waiting message, once delivered to a worker and left in peace, with a job of an earlier attempt gone, leads to a job, a stored RUNNING and an acknowledgement |
| LifecycleInvariants.EveryQueuedRunCanStillLaunch | services/execution.go:504-530 | from every state reachable without slips, some continuation without slips launches any QUEUED run of a known kind that was neither launched nor abandoned in its current attempt, the first or a later one |
| LifecycleInvariants.DeliveryAmongOthers | worker/submit_worker.go:69-187 | in every schedule, the others doing and failing as they may, a worker that has received a message and goes through with it without crash or slip, getting an answer from the back end, leaves the run started in its attempt or past QUEUED, unless the run is sent to retry meanwhile |
| LifecycleLimits.OneSlipLosesARun | worker/submit_worker.go:77-136 | each of the eight kinds of slips, alone in an otherwise careful schedule, loses a run for good; two of them lose a recycled run |
| LifecycleLimits.SafeIffNoSlips | execution/engine/eks_engine.go:130-133 | schedules in which only certain kinds of slips happen never lose a run if and only if there are no such kinds |
| LifecycleLimits.SlipMayBeHarmless | worker/status_worker.go:173-197 | an example of a stale QUEUED over NEEDS_RETRY that loses nothing, as an earlier message is still there |
| LifecycleLimits.JobsToCome | worker/submit_worker.go:89-145 | once a run has left QUEUED, and until it is sent to retry, at most one more job is created for every worker that has read it as QUEUED and not called the back end, whatever is delivered or deleted; and that many can be |
| LifecycleLimits.AnotherJobIffCommitted | worker/submit_worker.go:89-145 | a run stored as PENDING, RUNNING or STOPPED can still get a Kubernetes job if and only if there is such a worker |
| Workers.ProcessReceipt | worker/submit_worker.go:69-187 | one receipt, others doing anything at every pause: exactly the steps of this worker for each answer of store, back end and queue; the run is submitted exactly if it was QUEUED when read; after a retryable error nothing is stored and the message stays, as it does for a run of unknown kind; otherwise it is deleted unless that call fails; what the worker can slip in |
| Workers.SubmitWorkerRunOnce | worker/submit_worker.go:58-188 | one pass over the receipts: exactly the steps about each, one after the other, which messages may stay and for which answer, and that nothing gets lost if nobody slipped |
| Workers.RecycleRun | worker/retry_worker.go:67-78 | the worker writes QUEUED to the row and then makes one enqueue call, these two steps in this order up to the first failure, whatever the others do in between |
| Workers.RetryWorkerRunOnce | worker/retry_worker.go:54-80 | exactly the steps of one pass: the listing, then QUEUED and a message for every run up to the first failing call; only a failing enqueue slips |
| Workers.CreateAndEnqueueRun | services/execution.go:504-530 | exactly the steps of the request, in order, up to the first failing call: the row is stored as QUEUED, the message is sent, the time is stamped; only a failing enqueue slips |
| Workers.ProcessEksRun | worker/status_worker.go:133-200 | a poller with a listed copy, others coming in before the reload, the question to the cluster and the write, which may fail: a run found STOPPED is left alone; else what is stored is STOPPED if the job is gone, the status of the job if it says one, or the status listed; it slips only by repeating a QUEUED, and nothing is lost if nobody slipped |
| EmrEvents.StatusJoinsHandledEvents | worker/events_worker.go:112-155 | under every interleaving, redelivery and crash the status is the latest of the initial one, the handled events and the writes of others, and no deleted event comes after it |
| EmrEvents.StatusByEvents | worker/events_worker.go:125-146 | the same in terms of events: STOPPED exactly once a COMPLETED or FAILED event was handled, before that RUNNING exactly once a RUNNING one was, before that PENDING exactly once a SUBMITTED one was, unless others had the run there already |
| EmrEvents.HandledInOneGo | worker/events_worker.go:112-155 | a handler that gets through stores and deletes its event; one of an unknown state leaves every status as it is |
| EmrEvents.SameEventsSameStatus | worker/events_worker.go:112-155 | two histories that handled events of the same states agree on the final status |
| TerminateFanout.StepKeepsBalanced | services/execution.go:411-429 | jobs on the channel always equal the goroutines waiting plus those about to be started |
| TerminateFanout.NeverWedged | services/execution.go:132 | with capacity 100 and the send before the spawn, every unfinished state has an enabled step, whatever fails; else the channel is empty |
| TerminateFanout.ChannelIsBounded | services/execution.go:132 | there are never more than 100 jobs on the channel, and whoever has to send is blocked exactly while there are 100 |
| TerminateFanout.StoresIff | services/execution.go:436-459 | with its jobs sent on, a goroutine goes on to store STOPPED exactly if it has read the run as QUEUED, or neither as STOPPED nor does the engine fail |
| TerminateFanout.GoesByWhatItRead | services/execution.go:411-462 | from taking its job to that decision a goroutine goes by the status first read, however old; a failing read ends it, a failing listing does not |
| TerminateFanout.Terminates | services/execution.go:411-462 | any number of requests over an acyclic spawn relation take at most seven steps per run of the trees below them |
| TerminateFanout.CleanFanoutStopsAll | services/execution.go:411-462 | a fan-out whose calls succeed, but for engine calls about runs read as QUEUED, can always go on until all has finished, and then every requested run and every descendant is STOPPED, in spite of concurrent writers |
| TerminateFanout.EveryDescendantIsStopped | services/execution.go:411-462 | in any finished clean fan-out the run at the end of every spawn path from a requested run is STOPPED |
| TerminateFanout.OneGoroutinePerJob | services/execution.go:467-471 | it has then started exactly one goroutine per job, that is, per run of the trees |
| LogPaging.LogsToMessageString | clients/logs/eks_s3_logs_client.go:315-362 | one call returns the messages of the parseable lines of one page and the next cursor |
| LogPaging.PollsEmit | clients/logs/eks_s3_logs_client.go:342-361 | polls of a growing file return, in order, the lines passed except the first one completed after each poll that met the end |
| LogPaging.NothingSkippedIff | clients/logs/eks_s3_logs_client.go:343-350 | no line is skipped if and only if at every poll before the file had its last length, it had a page of 257 lines for that poll and each before it |
| LogPaging.SkipsAtEnds | clients/logs/eks_s3_logs_client.go:343-350 | in terms of the polls: if and only if none met the end of a version that was still to grow |
| LogPaging.SecondLineSkipped | clients/logs/eks_s3_logs_client.go:343-350 | an example: once a file of one line was read to its end, its second line is never returned by any number of polls |
| LogPaging.FixedFileIsReadOnce | clients/logs/eks_s3_logs_client.go:343-361 | a file of n lines is read once and in order; the cursor is n+1 exactly from poll number n/257+1 on |
| LogPaging.PollAll | clients/logs/eks_s3_logs_client.go:182-206 | feeding each cursor back over the versions of an append-only file yields the messages and the cursor that the two lemmas speak about |
| LogPaging.EmrLogs | clients/logs/eks_s3_logs_client.go:147-164 | one call returns all complete lines from the given one on, and their number |
| LogPaging.PollAllEmr | clients/logs/eks_s3_logs_client.go:128-164 | polling an append-only EMR log yields exactly its complete lines at the last poll, none lost, none repeated |
| LogPaging.LinesFlatten | clients/logs/eks_s3_logs_client.go:151-163 | the lines a reader returns, put together, are the text up to its last newline |
| LogPaging.LinesEndAtNewlines | clients/logs/eks_s3_logs_client.go:151-163 | each of them ends with its only newline |
| LogPaging.MessagesOfOne | clients/logs/eks_s3_logs_client.go:342-361 | a line that parses gives its message, and any other gives nothing |
| Resources.AdaptiveResources | execution/adapter/eks_adapter.go:259-289 | the four quantities, with requests at most limits, and in the global bounds unless the run wants a GPU |
| Resources.EstimateNeedsBothFlags | execution/adapter/eks_adapter.go:263-269 | unless both the engine and the executable have the adaptive flag the estimate does not matter; with both and no GPU a legal estimate is requested as it is |
| Resources.DefaultMemory | execution/adapter/eks_adapter.go:307-340 | the memory of the run, else of the definition, else 512 MB, where zero counts as missing |
| Resources.DefaultCpu | execution/adapter/eks_adapter.go:307-340 | the CPU likewise, else 256, and for 36864 to 131071 MB without a GPU at least an eighth of the memory |
| Resources.LegalOrGpuShare | execution/adapter/eks_adapter.go:281-305 | requests and limits lie between 256 and 32000 and between 512 and 250000, or a GPU run gets 6000 and 7500, 50000 and 60000 for each GPU |
| Resources.NearestRequestLeastLimit | execution/adapter/eks_adapter.go:263-305 | without a GPU the request is the legal pair nearest to what was wanted, and the limit the least legal one covering it and the defaults |
| Resources.FeedbackReproducesIff | execution/adapter/eks_adapter.go:219-340 | the adapted run fed back without an estimate reproduces the quantities if and only if it is a GPU run, there was no estimate, or the estimate in bounds is no less than the defaults and nothing the override would raise |
| Resources.FeedbackCanLowerTheLimit | execution/adapter/eks_adapter.go:259-289 | an example where feeding back halves the memory limit |
| Resources.FeedbackSettles | execution/adapter/eks_adapter.go:307-340 | after one adaptation without estimate nothing changes any more, and no request is ever taken back |
| Resources.PollingRaisesRequestToLimit | execution/engine/eks_engine.go:476-486 | a polled run submitted again requests as much memory as it was limited to, and the same CPU unless the override for large memories applies |
| Resources.NinetyNinthOfFewIsMaximum | state/pg_queries.go:38-53 | of fewer than a hundred values percentile_disc(0.99) is the maximum, and nothing else is |
| Resources.NinetyNinthOfManyMayNotBe | state/pg_queries.go:51 | for every larger sample size that fails, so the limit of thirty rows matters |
| Resources.EstimateIsOfMaxima | state/pg_queries.go:38-53 | over at most thirty runs an estimate is 1.75 times the largest memory that one speaks for, twice the memory of a killed one and the use of any other, and 1.25 times the largest CPU use, rounded to the nearest |
| Resources.NoEstimateIff | state/pg_queries.go:38-53 | there is none exactly if no run speaks for a memory, or a doubled memory or a scaled maximum does not fit 32 bits |
| Resources.KillEscalates | state/pg_queries.go:38-53 | a sampled out-of-memory kill at m gives the next adaptive request at least min(250000, 3.5 m) |
| Resources.FiveKillsReachTheCap | execution/adapter/eks_adapter.go:263-305 | from any legal memory, at most five kills in a row reach the cap |
| MergeMaps.MergeMaps | utils/utils.go:23-53 | in memory and in any key order: succeeds exactly for compatible trees, leaves the user's map holding the merged tree, writes no default map and of the user's maps only those met on the way; the user may already hold defaults at their own paths |
| MergeMaps.MergedAtEveryPath | utils/utils.go:19-22 | at every path what the user set stays, with the user's own maps, and everywhere else the default is what is found |
| MergeMaps.CompatibleByPaths | utils/utils.go:27-53 | the merge gets through if and only if it comes to no path where the default is nil, or is a map with entries while the user has something else |
| MergeMaps.MergingAgain | utils/utils.go:28-53 | on trees, a second merge changes nothing, and gets through if and only if no default is nil at any depth |
| MergeMaps.ReadyAgain | utils/utils.go:32-33 | after a merge the user's tree, now sharing maps with the defaults, can be merged with them again |
| MergeMaps.MergeTwice | utils/utils.go:23-53 | so in memory too, merging twice leaves what merging once does, and the second time succeeds if and only if no default is nil at any depth |
| MergeMaps.NilBreaksSecondMerge | utils/utils.go:31-33 | an example of defaults that merge once and panic the second time |
| MergeMaps.Insert | utils/utils.go:32-33 | a missing key gets the default by reference, and nothing else changes |
| CloudTrail.MakeSet | worker/cloudtrail_worker.go:133-143 | the loop keeps the first record of each key, in order |
| CloudTrail.KeysStay | worker/cloudtrail_worker.go:133-143 | a key is among the kept records if and only if it was among the given ones |
| CloudTrail.KeysAreDistinct | worker/cloudtrail_worker.go:133-143 | no key is kept twice |
| CloudTrail.FirstComesFirst | worker/cloudtrail_worker.go:137-140 | a kept record is the first of its key |
| CloudTrail.KeysActLikeActionsIff | state/models.go:866-874 | keeping one per `String` is keeping one per `Equal` if and only if no two different actions have the same string |
| CloudTrail.DashlessSourcesStayApart | state/models.go:871-874 | that never happens for event sources without a dash |
| CloudTrail.KeysCanRunTogether | state/models.go:871-874 | an example of two different actions of which only the first is kept |
| CloudTrail.LastSegmentFollowsLastSlash | worker/cloudtrail_worker.go:145-149 | the run of a record is what follows the last slash of its ARN, or the whole ARN |
| CloudTrail.MatchingAreTheRuns | worker/cloudtrail_worker.go:105-113 | the records of a run are exactly those of the batch with the service account and "eks-" in their ARN whose ARN ends in the run, after a slash if there is one |
| CloudTrail.ProcessNotifications | worker/cloudtrail_worker.go:105-131 | in any order of the groups, every stored run absorbs its own records of the batch and no other run changes |
| CloudTrail.IncrementalIsBatch | worker/cloudtrail_worker.go:115-130 | after any batches a run holds the first-occurrence de-duplication of what it started with and all its matching records, or just what it started with if there are none |
| CloudTrail.ReplayChangesNothing | worker/cloudtrail_worker.go:105-143 | any earlier batch delivered again at any later time changes nothing, whatever the runs held at first |
| WorkerPool.Manager.AddWorker | worker/worker_manager.go:159-174 | the worker is started before its slot is looked for: without one it runs untracked |
| WorkerPool.Manager.RemoveWorker | worker/worker_manager.go:146-157 | the youngest worker of the type is killed and leaves its slot |
| WorkerPool.Manager.UpdateWorkerCount | worker/worker_manager.go:120-144 | the type gets the wanted count, older workers staying, unless none can be constructed; other types are untouched |
| WorkerPool.Manager.RunOnce | worker/worker_manager.go:96-118 | the same for every listed type, and exactly one more lost worker for every row that asks for a type without slots |
| WorkerPool.Manager.InitializeWorkers | worker/worker_manager.go:54-81 | succeeds exactly if every row can be met; then the listed types have their counts and nobody is lost |
| WorkerPool.Manager.Run | worker/worker_manager.go:54-118 | over any passes with types known at start-up, running workers are exactly the tracked ones and the last listing is met |
| WorkerPool.NoStrays | worker/worker_manager.go:168-173 | a pass loses nobody if and only if no row asks for workers of a constructible type without slots |
| WorkerPool.ReachedIff | worker/worker_manager.go:120-144 | what reaching a count means: all, or the oldest, or all and new ones after them; as many as wanted, none for a negative count, no more than before if none can be made |
| Templates.Diff | services/template.go:105-183 | two complete templates are the same exactly if they agree in all fields, up to lists that one of them leaves out; otherwise the first field met decides, or a nil panics |
| Templates.SameIffEqual | services/template.go:105-183 | two complete templates are the same exactly if the records are equal but for the version, up to lists that one of them leaves out |
| Templates.Table.Create | services/template.go:32-81 | the answer and the rows after it, those of the lemmas below; an error of the query or of the insert is handed back and adds no row |
| Templates.RejectsIff | state/models.go:1025-1043 | a request is rejected exactly if name, schema, command or image is missing and the adaptive flag is not |
| Templates.NewRowIs | services/template.go:187-244 | answer and row of a new version: what the request says, with 512 MB, 256 CPU units and no defaults where it says nothing; the row is without ports and tags |
| Templates.LatestIsHighest | state/pg_queries.go:285 | the query returns a row of the name with the highest version, if there is any row |
| Templates.VersionsAreOneToK | services/template.go:52-76 | over any requests, whichever queries and inserts fail, the versions of a name are exactly 1 to k, each once, and consecutive ones differ |
| Templates.RepeatingCreatesNothing | services/template.go:66-80 | a request that went through, repeated, inserts nothing and is answered with the latest row of its name, unless the query for it fails |
| Templates.NewVersionIff | services/template.go:105-183 | exactly which requests for a stored name make a new version, given whether query and insert work; adding or dropping an environment does not |
| Templates.NothingIsStoredAsWritten | state/pg_state_manager.go:1460-1490 | if in every call the query or the insert fails, as the statements are written, the table stays empty and every request ends in a panic, a rejection or the error |
| Templates.PanicsIff | services/template.go:118-223 | exactly which requests panic: no adaptive flag, or no GPU count when name, command, image and memory, 512 MB if missing, are those of the latest row |
| Environment.EnvOverrides | execution/adapter/eks_adapter.go:365-395 | each non-empty sanitised name once, in any order, with the value of its last writer |
| Environment.ConstructEnviron | services/execution.go:288-308 | the reserved variables, each once in some order, then the request's, in an array filled by index |
| Environment.LastWriterWins | execution/adapter/eks_adapter.go:365-384 | exactly the names that occur, each with the value at its last occurrence |
| Environment.OrderIsIrrelevantIff | services/execution.go:295-301 | all orders of the reserved map give the container the same environment if and only if reserved names clash only where the request decides, or on the empty name |
| Environment.OrderCanMatter | services/execution.go:295-301 | an example of two reserved names whose order decides the value |
| Environment.DistinctNamesNeedNoOrder | services/execution.go:295-301 | in particular if the sanitised reserved names are distinct |
| Environment.ContainerEnvironment | execution/adapter/eks_adapter.go:365-395 | from request to container: each name once, by the last writer over definition, some order of the reserved and the request variables |
| Environment.SanitizeKeeps | execution/adapter/eks_adapter.go:397-405 | exactly which names stay as they are, and when a second pass would change more |
| Environment.OnlySpacesGo | execution/adapter/eks_adapter.go:397-405 | every space goes, wherever it is, and nothing else |
| Environment.OneDollarGoes | execution/adapter/eks_adapter.go:397-405 | a dollar sign in front goes, once |

## Left out

- The Redis status lock, clocks, TTLs, visibility timeouts and queue retention: no proved property rests on them.
- AWS, Kubernetes, EMR, Redis, HTTP and SQL clients beyond the outcomes listed in the models, JSON, regular expressions, text templates, metrics and logging.
- RunRecords.Updated: the values of fields are texts; what they mean is modelled where another module needs it.
- RunRecords.UpdateRun: the row is supposed to exist; without it the statement changes nothing.
- Pod metrics, pod events, node affinity and the choice of the most recent pod in `FetchUpdateStatus`.
- LifecycleInvariants.Covered: speaks of runs stored as QUEUED. A stale RUNNING or STOPPED may also be written over a NEEDS_RETRY or the QUEUED of a new attempt, which ends that attempt without a launch.
- The idempotency token that EMR gets with a job: a second submission of a run counts as a start of its own. The retry worker recycles EKS runs only.
- Deleting a definition together with its runs, alias uniqueness, and the REST and UI layers.
- int64 overflow in the resource arithmetic, which takes GPU counts or memory far outside any instance type.
- Read errors other than the end of the file in the log readers; the EMR reader would loop forever.
- Spawned runs that appear while a termination is under way: the listing is a fixed relation.
- CloudTrail.IncrementalIsBatch: supposes that nobody else writes the records of the run in between (`RunRecords.StaleCopyReverts` says what happens otherwise), and that store calls succeed.
- MergeMaps.MergeMaps: default maps of a Go type other than `map[string]interface{}` are not part of the model, nor users that hold the same map at two paths.
- WorkerPool.Manager.InitializeWorkers: after a failure the slots not yet filled are not modelled; the process gives up then.
- Templates.Table.Create: identifiers are not modelled, and JSON columns are taken to read back as they were written.
- Resources.Estimates: which of the matching rows the database samples is left open.
