# Render-job protocol: a verified model

The system accepts render requests, stores a job record for each, publishes a message, and lets
workers claim the message, submit the job to a render pipeline, poll it and store the outcome.
Delivery is at least once. Records are read and written back whole, so a worker and an operator can
overwrite each other. This project models that protocol in Dafny 4.11 and proves what survives.

Check everything with `dafny verify dfyconfig.toml`.

## How the files fit together

| files | content |
|---|---|
| `Base`, `Sorting`, `Domain`, `Contracts`, `Trace` | shared values, stable sorting, the job lifecycle, job records, the diagnostic trace |
| `WorkerProgram` | one execution as an automaton over its visible actions: read, write, submit, interrupt, return, raise |
| `ProcessJob` | `ProcessJobUseCase.execute` as imperative code over adversarial collaborators; its actions are proved to be runs of the automaton |
| `JobStore`, `JobRepositories` | record store and request-cache index against the history of calls; the file, memory and S3 repositories as classes |
| `CreateJob`, `ManageJob` | job creation with request deduplication; the operator's edits |
| `MemoryQueue`, `FileQueue`, `WorkerLoop`, `LoopProtocol` | the two queues and the bounded worker loop; its turns as steps of the protocol |
| `Delivery`, `DeliverySafety`, `Draining`, `Progress` | the whole protocol as a state machine that interleaves creators, the automaton and operators; what every run keeps; how many deliveries draining takes, and that it ends |
| `Finality`, `StuckJobs`, `Dedup`, `FreshJobs`, `Hazards` | when a terminal status or a deletion is final; jobs that never end by themselves; deduplication and its exact condition; runs that show what is not promised |
| `InFlight`, `WorkerState`, `LostJobs` | the worker's published state against its event history; the lost-job diagnosis on top |
| `JsonText`, `CacheKey` | the canonical JSON text and the injectivity of the cache-key payload |
| `ActionStore`, `WorkerActions` | the operator's command queue, its executor and control loop |

`ProcessJob` and `Delivery` meet in `WorkerProgram`: the first proves that the code emits only runs of
the automaton, the second interleaves exactly those runs with everything else, one repository
operation at a time, with snapshot semantics (a reader gets a copy). The automaton fixes the order of
reads, writes, the submission and the entry into the exception handler, stage update by stage update,
and the status, id and key of every record; what else a record holds is left open there and pinned in
`ProcessJob`. The runs in `Hazards` write the records that the code builds.

Times are integers in microseconds. A call that may raise returns an `Outcome`. A collaborator that
is not modelled answers anything the type allows, or raises, at every call.

## What the proofs found

- A terminal status is not final in the store. An execution that read a live record writes its copy
  back when it claims the job (`process_job.py:61`), so an operator's FAILED can become QUEUED again and
  then RUNNING. It is final exactly when no execution may still store a live record
  (`Finality.TerminalIsFinalIff`). Once RUNNING was stored a job is never QUEUED again, which is enough
  for a single submission.
- A deleted job can come back from an execution, from the no-op of a redelivery, or from a second
  operator's copy. It stays deleted exactly when nobody holds a copy that may still be stored
  (`Finality.DeletedStaysDeletedIff`).
- A RUNNING job that no execution is running is redelivered without end and never acknowledged until an
  operator ends it (`StuckJobs`); one failed write of the exception handler is enough to get there.
- `mark_failed` also overwrites SUCCEEDED; the record keeps its result and `finished_at`.
- If the observer raises after completion, the job stays SUCCEEDED but carries an error and a failed
  stage; the delivery is put back and ends as a no-op.
- The stage reported for a failure is the running one if there is one; otherwise the last failed stage
  of the whole trace is reported, which may date from an earlier delivery (`Hazards.StaleReport`).
- If the state service raises while the loop books a failed execution, the delivery has left the
  in-flight dictionary and is neither acknowledged nor put back. Conservation therefore counts such
  messages as dropped; a live job lacks a message exactly when its delivery was dropped.
- The request-cache index means "last written", not "largest `updated_at`". A redelivered failed job is
  written by its no-op and takes the index back, after which a second fresh live job of the key can be
  created. A queue backed up for more than five minutes is enough as well: the stale waiting job is
  replaced, then it starts, and both are fresh. "One fresh live job per key" holds if no job is written
  after a later job with its key was created, and holds at every moment of a run exactly when no step
  meets the condition of `FreshJobs.StepBreaksIff`.
- The S3 `delete` removes the record before it follows the index, so its index entry is never removed.
  The guard of the indexed read masks the dangling entry in every lookup.
- `docs/contracts/jobs.md:85` promises that a matching queued, running or succeeded job is returned. The
  code looks at one job per key, the one the index or the scan answers with; an older succeeded job
  behind a newer failed one is not reused (`CreateJob.ReuseIff`).
- Lost jobs are those at least 301 seconds old, because the age is cut to whole seconds before it is
  compared; job creation calls a job stale right after 300 seconds.
- A detached update helper that was launched stays launched when the report after it raises: the
  action is then stored as failed. A command whose first status report raises stays "running" for ever
  (`WorkerActions.LeftRunningStays`).

## Model

| member | source | states |
|---|---|---|
| `DeliverySafety.NoLiveJobWithoutMessage` | packages/application/src/shadowgen_application/use_cases/process_job.py:50-168 | In every legal interleaving of creators, executions writing from private copies, operators and settlements, under exclusive delivery, a stored QUEUED or RUNNING job has its message pending or in flight, or its creator is about to publish it, except exactly when a delivery of it was dropped because the state service raised |
| `DeliverySafety.DroppedMeans` | apps/worker/src/shadowgen_worker/loop.py:49-55 | A job counts as dropped exactly when some step of the run dropped a delivery of it |
| `DeliverySafety.SubmittedAtMostOnce` | packages/application/src/shadowgen_application/use_cases/process_job.py:71-103 | Over any whole run `submit` is called at most once per job id, across redeliveries, operator edits, deletions and resurrections |
| `DeliverySafety.AckImpliesDone` | apps/worker/src/shadowgen_worker/loop.py:45-59 | Whenever a delivery can be acknowledged, the stored record of its job is terminal or gone |
| `DeliverySafety.NeverQueuedAfterRunning` | packages/application/src/shadowgen_application/use_cases/process_job.py:71-74 | Once a record of a job was stored RUNNING no later stored record of it is QUEUED |
| `DeliverySafety.RunKeepsInv` | packages/application/src/shadowgen_application/use_cases/process_job.py:50-168 | Every run keeps the protocol invariant: records, places of messages, no orphan, private copies and submissions fit together |
| `DeliverySafety.StepKeepsInv` | packages/application/src/shadowgen_application/use_cases/process_job.py:50-168 | Every single step keeps that invariant |
| `DeliverySafety.GetFits` | packages/application/src/shadowgen_application/use_cases/process_job.py:51-57 | A record read as QUEUED belongs to a job that never was stored RUNNING and was never submitted |
| `DeliverySafety.OperatorOnlyEnds` | packages/application/src/shadowgen_application/use_cases/manage_job.py:17-40 | An operator step stores a terminal record or removes one, and leaves the records of all other jobs as they are |
| `Draining.DeliveredAtMostTwice` | apps/worker/src/shadowgen_worker/loop.py:24-59 | In a run without store faults, missing assets, operator deletes, dropped and double deliveries each message is received at most twice, and the second time its job is terminal |
| `Draining.DrainsWithinTwoDeliveriesEach` | apps/worker/src/shadowgen_worker/loop.py:24-59 | Such a run uses at most 2n receives for n published messages, strictly fewer while one is pending; all n are acknowledged once nothing is pending or in flight |
| `Draining.SmoothIsBudgeted` | apps/worker/src/shadowgen_worker/loop.py:24-59 | The delivery budget behind both holds in every such run |
| `Progress.ExhaustedMeansDrained` | apps/worker/src/shadowgen_worker/loop.py:24-59 | A fault-free run in which no receive, execution step or settlement can go on without a fault is exactly one with nothing pending or in flight, and every published message is then acknowledged |
| `Progress.DrainingIsBounded` | apps/worker/src/shadowgen_worker/loop.py:24-59 | From any fault-free run at most `Remaining` further receives, execution steps and settlements are possible, whatever their order |
| `Progress.CanBeDrained` | apps/worker/src/shadowgen_worker/loop.py:24-59 | Every fault-free run has a fault-free continuation that drains it |
| `Progress.DrainStepIsCloser` | apps/worker/src/shadowgen_worker/loop.py:24-59 | Every receive, execution step and settlement leaves less to do |
| `Finality.TerminalIsFinalIff` | packages/application/src/shadowgen_application/use_cases/process_job.py:50-168 | A terminal status (or the absence of a record) is final over every exclusive continuation exactly when no execution that has read a live record may still store one |
| `Finality.DeletedStaysDeletedIff` | packages/application/src/shadowgen_application/use_cases/manage_job.py:38-40 | A deleted job stays deleted over every exclusive continuation exactly when no execution that has read it may still store a record and no operator holds a copy |
| `Finality.StepKeepsDone` | packages/application/src/shadowgen_application/use_cases/process_job.py:50-168 | Every step keeps the first condition |
| `Finality.StepKeepsGone` | packages/application/src/shadowgen_application/use_cases/manage_job.py:17-46 | Every step keeps the second condition |
| `Finality.LiveCopyIsStored` | packages/application/src/shadowgen_application/use_cases/process_job.py:59-137 | Without the first condition at most two further steps, of the execution that violates it, store a live record |
| `Finality.CopyIsStored` | packages/application/src/shadowgen_application/use_cases/manage_job.py:17-36 | Without the second condition at most two further steps bring the job back |
| `StuckJobs.StuckUntilOperator` | packages/application/src/shadowgen_application/use_cases/process_job.py:50-74 | A RUNNING job that no execution is running stays so and is never acknowledged, on any run, until an operator writes or removes its record |
| `StuckJobs.RunningCanEndIff` | packages/application/src/shadowgen_application/use_cases/process_job.py:50-168 | A RUNNING job can end without an operator exactly when it is not stuck |
| `StuckJobs.StepKeepsStuck` | packages/application/src/shadowgen_application/use_cases/process_job.py:50-74 | No step but an operator's on that job ends or acknowledges it |
| `Dedup.OneFreshLiveJobPerKey` | packages/application/src/shadowgen_application/use_cases/create_job.py:30-69 | If no job is written after a later job with its key was created, each key has at most one live, fresh job at every moment of the run |
| `FreshJobs.StepBreaksIff` | packages/application/src/shadowgen_application/use_cases/create_job.py:30-69 | From a state of any run with at most one live, fresh job per key, a step makes a second one exactly when it creates a job while the key has a fresh one and the lookup is blocked (the last-written job cannot be reused, or, when it is gone, the newest stored job that the scan answers with has failed or was canceled) and the new record is itself fresh, or writes a live, fresh record while another job of its key is fresh |
| `FreshJobs.AlwaysOneFreshIff` | packages/application/src/shadowgen_application/use_cases/create_job.py:30-69 | On any run each key has at most one live, fresh job at every moment exactly when no step does either |
| `FreshJobs.BlockedIff` | packages/adapters/src/shadowgen_adapters/jobs/file_job_repository.py:39-51 | While a key has a fresh live job, its lookup misses exactly when it is blocked in that sense, read off the history of writes and deletes |
| `FreshJobs.RepoIsReplay` | packages/adapters/src/shadowgen_adapters/jobs/file_job_repository.py:16-68 | The store of any run is what its history of writes and deletes leaves |
| `FreshJobs.NewestDecide` | packages/adapters/src/shadowgen_adapters/jobs/file_job_repository.py:43-51 | When the last-written job is gone the newest stored records of the key decide: all ended badly blocks, none did does not, and where they differ the scan may answer with either |
| `Dedup.LookupFindsLatest` | packages/adapters/src/shadowgen_adapters/jobs/file_job_repository.py:39-51 | Under that hypothesis the lookup of a creator finds the latest job of the key while it is stored |
| `Dedup.RunKeepsDedup` | packages/application/src/shadowgen_application/use_cases/create_job.py:30-69 | The deduplication invariant holds over every such run, double deliveries included |
| `Dedup.PublishedOnce` | packages/application/src/shadowgen_application/use_cases/create_job.py:67-68 | Over a whole run each created job publishes at most one message |
| `Hazards.FailedBecomesQueued` | packages/application/src/shadowgen_application/use_cases/process_job.py:59-61 | A run in which the claim write turns an operator's FAILED back into QUEUED |
| `Hazards.DeletedComesBack` | packages/application/src/shadowgen_application/use_cases/process_job.py:59-74 | A run in which a job deleted between claim and start is stored again as RUNNING |
| `Hazards.OperatorBringsBack` | packages/application/src/shadowgen_application/use_cases/manage_job.py:17-36 | A run in which a deleted job comes back from the copy of a second operator |
| `Hazards.NoopBringsBack` | packages/application/src/shadowgen_application/use_cases/process_job.py:54-57 | A run in which a deleted job comes back from the no-op of its redelivery |
| `Hazards.HandlerWriteLeavesStuck` | packages/application/src/shadowgen_application/use_cases/process_job.py:157-168 | A run in which one failed write of the exception handler leaves a stuck RUNNING job |
| `Hazards.DropLosesMessage` | apps/worker/src/shadowgen_worker/loop.py:49-55 | A run in which a QUEUED job loses its message |
| `Hazards.RedeliveryCanSubmitTwice` | packages/application/src/shadowgen_application/use_cases/process_job.py:50-103 | Without exclusive delivery a job can be submitted twice, all writes before the submissions included |
| `Hazards.RedeliveryDefeatsDedup` | packages/application/src/shadowgen_application/use_cases/process_job.py:54-57 | The terminal no-op of an old job re-points the index and the next request makes a second fresh live job |
| `Hazards.BackedUpQueueDefeatsDedup` | packages/application/src/shadowgen_application/use_cases/create_job.py:79-81 | A queue backed up for more than five minutes makes two fresh live jobs of a key: a stale job is replaced, then starts |
| `Hazards.StaleReport` | packages/application/src/shadowgen_application/use_cases/process_job.py:300-304 | A trace left by two deliveries in which the failure report names a stage that succeeded this time |
| `WorkerProgram.LocalMatchesStored` | packages/application/src/shadowgen_application/use_cases/process_job.py:50-168 | The automaton of an execution knows the status of the record it stored last |
| `WorkerProgram.ReturnMeansTerminal` | packages/application/src/shadowgen_application/use_cases/process_job.py:50-168 | An execution that returns stored a terminal record last |
| `WorkerProgram.SubmitOncePerExecution` | packages/application/src/shadowgen_application/use_cases/process_job.py:71-103 | One execution submits at most once, and RUNNING is the status it stored last before |
| `WorkerProgram.RunsAreBounded` | packages/application/src/shadowgen_application/use_cases/process_job.py:50-168 | An execution takes at most 15 visible actions |
| `WorkerProgram.SettledIsTerminal` | packages/application/src/shadowgen_application/use_cases/process_job.py:50-168 | What each automaton state says about the status that was read or stored |
| `ProcessJob.ProcessJobUseCase.Execute` | packages/application/src/shadowgen_application/use_cases/process_job.py:50-168 | For every behaviour of stores, pipeline, clock and observer and all settings (with a poll interval of zero, time must pass in the polls): the visible actions are a run of the automaton; the stores and the pipeline are asked for exactly this job, its source asset and its request, and the observer is told of capabilities, submission and completion, in order and with what is the case; persisted traces form a ledger; polling obeys its law and ended for the reason its last answer gives; a live return is SUCCEEDED with the error that was read and with a result that lists the references the asset store returned for exactly the artifacts of the submission's answer, or else of the last poll answer, which was a completed one, and exactly the stages of a successful execution in order; created <= started <= finished = updated if the job was created before; a terminal return gained one skipped stage and nothing else; an exit by exception after RUNNING stored a terminal status (unless that write raised), never downgrades SUCCEEDED or drops its result, stores the interrupted trace with its running stage failed and one failed entry added, carries the message of the exception that a collaborator raised or that ended the polling, and reports job, error and stage to the observer |
| `ProcessJob.ProcessJobUseCase.Process` | packages/application/src/shadowgen_application/use_cases/process_job.py:50-168 | The same, before the log is closed by the return or the raise |
| `ProcessJob.ProcessJobUseCase.ProcessFound` | packages/application/src/shadowgen_application/use_cases/process_job.py:54-168 | The same once a record was found: the no-op of a terminal job, or claim and attempt |
| `ProcessJob.ProcessJobUseCase.AttemptOrRecover` | packages/application/src/shadowgen_application/use_cases/process_job.py:76-168 | The try block and its handler together: SUCCEEDED with the references to exactly the artifacts the pipeline produced, or a handled failure with the reported stage |
| `ProcessJob.ProcessJobUseCase.TerminalNoop` | packages/application/src/shadowgen_application/use_cases/process_job.py:54-57 | A terminal job gains one skipped stage, nothing else changes, and it is stored again |
| `ProcessJob.ProcessJobUseCase.Claim` | packages/application/src/shadowgen_application/use_cases/process_job.py:59-74 | Before RUNNING is stored every exit leaves the status that was read; success means RUNNING was stored from QUEUED |
| `ProcessJob.ProcessJobUseCase.MarkClaimed` | packages/application/src/shadowgen_application/use_cases/process_job.py:59-61 | The claim is stored with the status that was read |
| `ProcessJob.ProcessJobUseCase.LoadRef` | packages/application/src/shadowgen_application/use_cases/process_job.py:63-69 | The asset of the stored request is asked for; if it is missing the stage is stored as failed with the status unchanged (unless that write raises) and an exception is raised; any other exit stores nothing |
| `ProcessJob.ProcessJobUseCase.StartJob` | packages/application/src/shadowgen_application/use_cases/process_job.py:71-74 | The domain start is refused unless the job is QUEUED; RUNNING is stored before anything else |
| `ProcessJob.ProcessJobUseCase.MarkRunning` | packages/application/src/shadowgen_application/use_cases/process_job.py:71-73 | The transition is allowed exactly from QUEUED and touches neither error nor result |
| `ProcessJob.ProcessJobUseCase.Attempt` | packages/application/src/shadowgen_application/use_cases/process_job.py:76-156 | The try block: every exit leaves the job RUNNING, or SUCCEEDED after completion; then the result lists the references to exactly the artifacts the pipeline produced, each was put into the asset store, and the trace gained the stages in order; asked are the probe, the bytes of the source asset and the rendering of the stored request, and the observer is told of each outcome |
| `ProcessJob.ProcessJobUseCase.Render` | packages/application/src/shadowgen_application/use_cases/process_job.py:101-156 | The same from the submission on |
| `ProcessJob.ProcessJobUseCase.Obtain` | packages/application/src/shadowgen_application/use_cases/process_job.py:101-153 | The output is that of the submission's answer, or, when it carries none, that of the completed poll answer; every exit by exception leaves the job RUNNING |
| `ProcessJob.ProcessJobUseCase.SubmitRender` | packages/application/src/shadowgen_application/use_cases/process_job.py:101-114 | Submission of job id, request, image and MIME type, at most one open stage, the deadline `job_ttl_ms` after it, and the in-flight entry told to the observer |
| `ProcessJob.ProcessJobUseCase.AwaitResult` | packages/application/src/shadowgen_application/use_cases/process_job.py:121-143 | The poll stage around the poll loop: what is returned is what the loop returned, and it ended for the reason its last answer gives |
| `ProcessJob.ProcessJobUseCase.PollUntilDone` | packages/application/src/shadowgen_application/use_cases/process_job.py:124-156 | The poll loop terminates; it obeys the poll law, and ends exactly for the reason its last answer gives: the result of an answer "succeeded" or "completed", else an exception; every earlier answer was "queued", "running", "submitted" or "processing"; cancel is called once, if and only if the deadline exit is taken; polls and cancel name the submission |
| `ProcessJob.ProcessJobUseCase.Judge` | packages/application/src/shadowgen_application/use_cases/process_job.py:139-157 | What an answer makes of the loop: a verdict exactly when it does not ask for another poll |
| `ProcessJob.StatusesMean` | packages/application/src/shadowgen_application/use_cases/process_job.py:138-156 | By status name, which answers ask for another poll and which complete the job, with the error limit counted over the whole loop |
| `ProcessJob.BoundIsQuotient` | packages/application/src/shadowgen_application/use_cases/process_job.py:124-151 | With a positive interval and no known poll time the bound on polls is ttl / interval + 1 |
| `ProcessJob.BoundAtTheEdges` | packages/application/src/shadowgen_application/use_cases/process_job.py:124-149 | Without time to live there is no poll; with a negative interval there is one, because sleeping raises |
| `ProcessJob.PolledOnce` | packages/application/src/shadowgen_application/use_cases/process_job.py:131-136 | One more poll keeps the poll law: spacing, bound, cumulative retry count never above the limit |
| `ProcessJob.Verdict` | packages/application/src/shadowgen_application/use_cases/process_job.py:139-156 | The branches of the loop decide exactly whether to poll again |
| `ProcessJob.OneMoreAnswer` | packages/application/src/shadowgen_application/use_cases/process_job.py:139-151 | Which answers ask for another poll, with errors counted over the whole loop |
| `ProcessJob.ProcessJobUseCase.CompleteJob` | packages/application/src/shadowgen_application/use_cases/process_job.py:170-198 | Every artifact is stored once, in order; SUCCEEDED is stored with the references the asset store returned, debug images apart, and with the metrics and warnings of the output; the error is left alone |
| `ProcessJob.ProcessJobUseCase.KeepArtifacts` | packages/application/src/shadowgen_application/use_cases/process_job.py:171-185 | The artifacts are stored under a stage of their own |
| `ProcessJob.ProcessJobUseCase.StoreArtifacts` | packages/application/src/shadowgen_application/use_cases/process_job.py:175-185 | Every artifact is put into the asset store once, in order, and the result lists the references it returned, split by the kind of the artifact, with metrics and warnings |
| `ProcessJob.PlacedAt` | packages/application/src/shadowgen_application/use_cases/process_job.py:181-184 | The reference to the i-th artifact is in the list of its kind, after those of the earlier artifacts of that kind, and the two lists hold nothing else |
| `ProcessJob.ProcessJobUseCase.Recover` | packages/application/src/shadowgen_application/use_cases/process_job.py:157-168 | The handler closes the running stage, stores FAILED (or keeps SUCCEEDED) with the error and the result as it was, and reports job, error and failed stage |
| `ProcessJob.ProcessJobUseCase.StartStage` | packages/application/src/shadowgen_application/use_cases/process_job.py:200-201 | Appends one open entry |
| `ProcessJob.ProcessJobUseCase.FinishStage` | packages/application/src/shadowgen_application/use_cases/process_job.py:203-221 | Closes the last open entry of the name, or records a new one |
| `ProcessJob.ProcessJobUseCase.FailRunningStage` | packages/application/src/shadowgen_application/use_cases/process_job.py:223-231 | Closes the last open entry, whatever its name |
| `ProcessJob.ProcessJobUseCase.RecordStage` | packages/application/src/shadowgen_application/use_cases/process_job.py:233-244 | Appends one closed entry |
| `ProcessJob.ProcessJobUseCase.LastFailedStageName` | packages/application/src/shadowgen_application/use_cases/process_job.py:300-304 | The backward scan finds the last failed entry |
| `ProcessJob.Job.ApplyDomainJob` | packages/application/src/shadowgen_application/use_cases/process_job.py:331-346 | Copies status and timestamps of the entity back and nothing else |
| `ProcessJob.FinishedKeepsLedger` | packages/application/src/shadowgen_application/use_cases/process_job.py:203-221 | Finishing a stage only extends the ledger and leaves none open |
| `ProcessJob.InterruptedKeepsLedger` | packages/application/src/shadowgen_application/use_cases/process_job.py:223-231 | Failing the running stage only extends the ledger and leaves none open |
| `ProcessJob.FinishedOutline` | packages/application/src/shadowgen_application/use_cases/process_job.py:200-221 | Starting a stage and finishing it adds exactly one finished entry |
| `ProcessJob.ReportedStage` | packages/application/src/shadowgen_application/use_cases/process_job.py:159-168 | The reported stage is the one that was running when the exception was raised, if one was; otherwise the last failed stage already in the trace |
| `ProcessJob.HandledTraceMeans` | packages/application/src/shadowgen_application/use_cases/process_job.py:157-165 | The trace the handler stores, entry by entry: the running stage failed with the exception's message, all others as they were, one failed entry more |
| `Trace.LastOpenIsLast` | packages/application/src/shadowgen_application/use_cases/process_job.py:203-231 | The search finds exactly the last matching open entry |
| `Trace.LastFailedIsLast` | packages/application/src/shadowgen_application/use_cases/process_job.py:300-304 | The search finds exactly the last failed entry |
| `Trace.OpenStageIsReported` | packages/application/src/shadowgen_application/use_cases/process_job.py:223-231 | In a trace whose only open entry is the last, failing it makes it the reported one |
| `Domain.LifecycleSafety` | packages/domain/src/shadowgen_domain/entities.py:21-51 | Over any calls under a monotone clock, refused ones included: created <= started <= finished = updated, terminal is final, never back to QUEUED, SUCCEEDED only by way of RUNNING |
| `Domain.JobEntity.Start` | packages/domain/src/shadowgen_domain/entities.py:21-25 | Allowed exactly from QUEUED; sets RUNNING, start and update time |
| `Domain.JobEntity.Complete` | packages/domain/src/shadowgen_domain/entities.py:27-31 | Allowed exactly from RUNNING; sets SUCCEEDED, finish and update time |
| `Domain.JobEntity.Fail` | packages/domain/src/shadowgen_domain/entities.py:33-38 | Allowed exactly from QUEUED or RUNNING; sets FAILED, finish and update time |
| `Domain.JobEntity.Cancel` | packages/domain/src/shadowgen_domain/entities.py:40-45 | Allowed exactly from QUEUED or RUNNING; sets CANCELED, finish and update time |
| `JobStore.FindMeansHistory` | packages/adapters/src/shadowgen_adapters/jobs/file_job_repository.py:28-81 | Over any history with fixed keys the lookup of the file and memory stores answers iff a job with the key is stored: the last-written one if it is still stored, otherwise one with maximal `updated_at` |
| `JobStore.IndexMeansLastWritten` | packages/adapters/src/shadowgen_adapters/jobs/file_job_repository.py:28-68 | The index entry of a key exists exactly while the last-written job is stored, and points at it |
| `JobStore.S3LookupUnderApproximates` | packages/adapters/src/shadowgen_adapters/jobs/s3_job_repository.py:33-90 | Over the same history the S3 lookup is none or the file store's answer, and answers exactly while the last-written job is stored |
| `JobStore.S3IndexDangles` | packages/adapters/src/shadowgen_adapters/jobs/s3_job_repository.py:33-67 | The S3 index keeps pointing at the last-written job, stored or not |
| `JobStore.S3DeleteKeepsIndex` | packages/adapters/src/shadowgen_adapters/jobs/s3_job_repository.py:33-38 | The S3 delete never removes an index entry |
| `JobStore.EmptyKeyIsNotIndexed` | packages/adapters/src/shadowgen_adapters/jobs/file_job_repository.py:61-68 | An empty key is never indexed, so its lookup always scans |
| `JobStore.LastWrittenHasKey` | packages/adapters/src/shadowgen_adapters/jobs/file_job_repository.py:70-81 | A stored last-written job still carries the key, so the guard of the indexed read never rejects it |
| `JobRepositories.Scan` | packages/adapters/src/shadowgen_adapters/jobs/file_job_repository.py:43-51 | The scan answers with a stored job of the key that no other one was updated after, or none if there is none |
| `JobRepositories.NewestMatch` | packages/adapters/src/shadowgen_adapters/jobs/file_job_repository.py:43-51 | The head of the sorted matches is a newest match |
| `JobRepositories.FileJobRepository.WriteFiles` | packages/adapters/src/shadowgen_adapters/jobs/file_job_repository.py:61-68 | Record and index entry are written |
| `JobRepositories.FileJobRepository.Delete` | packages/adapters/src/shadowgen_adapters/jobs/file_job_repository.py:28-37 | The record goes, and the index entry if it points at this job |
| `JobRepositories.FileJobRepository.GetIndexed` | packages/adapters/src/shadowgen_adapters/jobs/file_job_repository.py:70-81 | The indexed record, unless the entry dangles or the key differs |
| `JobRepositories.FileJobRepository.FindByRequestCacheKey` | packages/adapters/src/shadowgen_adapters/jobs/file_job_repository.py:39-51 | The answer against the history of calls |
| `JobRepositories.InMemoryJobRepository.Create` | packages/adapters/src/shadowgen_adapters/jobs/memory_job_repository.py:9-11 | Record and index entry are written |
| `JobRepositories.InMemoryJobRepository.Delete` | packages/adapters/src/shadowgen_adapters/jobs/memory_job_repository.py:20-23 | The record goes, and the index entry if it points at this job |
| `JobRepositories.InMemoryJobRepository.FindByRequestCacheKey` | packages/adapters/src/shadowgen_adapters/jobs/memory_job_repository.py:25-39 | The answer against the history of calls |
| `JobRepositories.S3JobRepository.WriteObjects` | packages/adapters/src/shadowgen_adapters/jobs/s3_job_repository.py:54-67 | Record and index object are written |
| `JobRepositories.S3JobRepository.Delete` | packages/adapters/src/shadowgen_adapters/jobs/s3_job_repository.py:33-38 | The record goes, the index object stays |
| `JobRepositories.S3JobRepository.GetIndexed` | packages/adapters/src/shadowgen_adapters/jobs/s3_job_repository.py:75-90 | A dangling entry or a foreign key is masked |
| `JobRepositories.S3JobRepository.FindByRequestCacheKey` | packages/adapters/src/shadowgen_adapters/jobs/s3_job_repository.py:40-41 | The answer against the history of calls |
| `CreateJob.CreateJobUseCase.Execute` | packages/application/src/shadowgen_application/use_cases/create_job.py:25-69 | The key is the digest of source hash and normalized request; a stored job is answered exactly if it succeeded or is live and at most 300 seconds old, as it is stored but for the two answer fields; otherwise the new job carries the id, the request, the key and the times, is QUEUED without start, finish, error or result, has the three closed trace entries and says why nothing was reused; a reuse, or a missing hash, leaves store and queue as they are; otherwise exactly one new job is stored with its index entry and exactly one message is appended |
| `CreateJob.CreateJobUseCase.CreateOrReuse` | packages/application/src/shadowgen_application/use_cases/create_job.py:30-69 | The same for a given key |
| `CreateJob.NewJobIsNew` | packages/application/src/shadowgen_application/use_cases/create_job.py:48-66 | A new job field by field: id, request, key, times, trace, cache status "miss", "miss-stale-queued" or "miss-stale-running" |
| `CreateJob.ReuseIsHit` | packages/application/src/shadowgen_application/use_cases/create_job.py:31-46 | A reused job is the stored one with cache status "hit-succeeded", "hit-queued" or "hit-running" and marked as reused |
| `CreateJob.ReusableMeans` | packages/application/src/shadowgen_application/use_cases/create_job.py:31-39 | Reusable is a job that succeeded, or that is queued or running and was updated at most 300 seconds ago |
| `CreateJob.SourceHashMeans` | packages/application/src/shadowgen_application/use_cases/create_job.py:26-29 | A given hash that is not empty is taken, otherwise the stored one |
| `CreateJob.ReuseIff` | packages/application/src/shadowgen_application/use_cases/create_job.py:30-47 | Over any history of the store: while the job last written under the key is stored, a request is answered with a stored job iff that one is reusable; otherwise a job updated last decides |
| `CreateJob.SucceededBehindFailedIsNotReused` | docs/contracts/jobs.md:85-88 | The documented reuse of a succeeded job fails behind a failed job of the same key written later |
| `CreateJob.NewJobIsClosed` | packages/application/src/shadowgen_application/use_cases/create_job.py:44-66 | A new job is QUEUED with ordered timestamps and a closed trace |
| `ManageJob.ManageJobUseCase.MarkFailed` | packages/application/src/shadowgen_application/use_cases/manage_job.py:17-36 | The record is failed whatever its status, stored, and raises iff it is missing |
| `ManageJob.ManageJobUseCase.Delete` | packages/application/src/shadowgen_application/use_cases/manage_job.py:38-46 | The record is removed, and raises iff it is missing |
| `ManageJob.MarkedFailedExtends` | packages/application/src/shadowgen_application/use_cases/manage_job.py:17-36 | The operator's record is FAILED with the operator's error, keeps result, identity, start and an existing finish time, and its trace gains one failed entry |
| `MemoryQueue.InMemoryJobQueue.Publish` | packages/adapters/src/shadowgen_adapters/queue/memory_job_queue.py:27-28 | One new message at the end |
| `MemoryQueue.InMemoryJobQueue.Receive` | packages/adapters/src/shadowgen_adapters/queue/memory_job_queue.py:37-40 | The front message moves to a fresh open delivery |
| `MemoryQueue.MemoryQueueDelivery.Ack` | packages/adapters/src/shadowgen_adapters/queue/memory_job_queue.py:10-11 | Settles once: acknowledged the first time, nothing after |
| `MemoryQueue.MemoryQueueDelivery.Nack` | packages/adapters/src/shadowgen_adapters/queue/memory_job_queue.py:13-17 | Settles once: back to the front the first time, nothing after |
| `FileQueue.ClaimKeepsPartition` | packages/adapters/src/shadowgen_adapters/queue/file_job_queue.py:58-67 | A claim rename overwrites nothing and keeps every message in exactly one place |
| `FileQueue.NackNeverOverwrites` | packages/adapters/src/shadowgen_adapters/queue/file_job_queue.py:24-34 | Putting back never overwrites another message, whatever the directory holds |
| `FileQueue.NackKeepsPartition` | packages/adapters/src/shadowgen_adapters/queue/file_job_queue.py:24-34 | Under fresh stems the old name is free, and every message stays in exactly one place |
| `FileQueue.AckKeepsPartition` | packages/adapters/src/shadowgen_adapters/queue/file_job_queue.py:18-22 | An acknowledgement moves one message to acknowledged |
| `FileQueue.PublishKeepsPartition` | packages/adapters/src/shadowgen_adapters/queue/file_job_queue.py:46-49 | A fresh stem adds exactly one message |
| `FileQueue.ReusedStemLosesMessage` | packages/adapters/src/shadowgen_adapters/queue/file_job_queue.py:58-67 | With a stem used twice a claim overwrites a message in flight |
| `FileQueue.FileJobQueue.Publish` | packages/adapters/src/shadowgen_adapters/queue/file_job_queue.py:46-49 | Adds one pending file, overwriting none |
| `FileQueue.FileJobQueue.Receive` | packages/adapters/src/shadowgen_adapters/queue/file_job_queue.py:58-67 | Apart from files that other consumers claimed meanwhile, exactly one pending file is claimed and no other is touched: the first by name of those that were pending and not stolen, delivered with its own content; none is returned only if all were stolen |
| `FileQueue.FileJobQueue.TryClaim` | packages/adapters/src/shadowgen_adapters/queue/file_job_queue.py:60-64 | One try claims the file, and it is the caller's unless another consumer was faster, which makes the rename raise |
| `FileQueue.TryNext` | packages/adapters/src/shadowgen_adapters/queue/file_job_queue.py:59-66 | The next file by name is still pending, and claiming it is all that one more try changes |
| `FileQueue.LeastExists` | packages/adapters/src/shadowgen_adapters/queue/file_job_queue.py:59 | Any set of pending files has a first one by name |
| `FileQueue.FileQueueDelivery.Ack` | packages/adapters/src/shadowgen_adapters/queue/file_job_queue.py:18-22 | Settles once by removing the claimed file |
| `FileQueue.FileQueueDelivery.Nack` | packages/adapters/src/shadowgen_adapters/queue/file_job_queue.py:24-34 | Settles once by renaming back, keeping the number of files |
| `WorkerLoop.WorkerLoop.Tick` | apps/worker/src/shadowgen_worker/loop.py:24-37 | Every turn keeps capacity and conservation (published = pending + in flight + acknowledged, plus messages dropped when the state service raised). Unless the state service raises: every execution in flight that had ended is settled, acknowledged iff it returned and put back iff it raised; then the front messages move in until the map is full or the queue empty; then every execution that has ended since is settled the same way; nothing else changes, idleness is reported exactly when nothing was in flight or pending, with one heartbeat. Seen from the protocol it is a sequence of its steps that contains these settlements and leads from the old queue and in-flight map to the new ones (if no job has two messages) |
| `LoopProtocol.TurnIsInARun` | apps/worker/src/shadowgen_worker/loop.py:24-59 | Simulation: from a protocol state that the loop's queue and in-flight map agree with, the steps of a turn, with any steps of creators, executions and operators in between, are a legal run of the protocol, provided the loop settles only executions that have ended so; afterwards queue and in-flight map agree with the state again |
| `LoopProtocol.LoopStepIsSimulated` | apps/worker/src/shadowgen_worker/loop.py:24-59 | Whatever the loop can do, seen from its own queue and in-flight map, the protocol can do, with the same effect |
| `LoopProtocol.OthersKeepView` | apps/worker/src/shadowgen_worker/loop.py:24-59 | No step of a creator, an execution or an operator changes what the loop sees, except that a publication adds a pending message |
| `WorkerLoop.ReceiveIsAStep` | packages/adapters/src/shadowgen_adapters/queue/memory_job_queue.py:37-40 | Taking the front message is the receive step of the protocol |
| `WorkerLoop.SettleIsAStep` | apps/worker/src/shadowgen_worker/loop.py:49-58 | Acknowledging, putting back and losing a delivery are the three settlement steps of the protocol |
| `WorkerLoop.WorkerLoop.DrainFinished` | apps/worker/src/shadowgen_worker/loop.py:45-59 | Every ended execution is settled exactly once: acknowledged iff it returned, reported as failed and put back iff it raised; nothing else changes |
| `WorkerLoop.WorkerLoop.Fill` | apps/worker/src/shadowgen_worker/loop.py:26-32 | Exactly the front messages of the queue move in, in number and content, as younger entries, up to capacity or until the queue is empty; the entries that were there stay |
| `WorkerLoop.WorkerLoop.Settle` | apps/worker/src/shadowgen_worker/loop.py:49-58 | Exactly one settlement, and a report to the state service iff the execution raised; dropped iff the state service raises first |
| `WorkerLoop.AllSettled` | apps/worker/src/shadowgen_worker/loop.py:45-59 | After the drain exactly the ended executions are gone, booked by their verdict |
| `InFlight.ListMeansHistory` | apps/worker/src/shadowgen_worker/state.py:82-160 | After any events the list holds exactly the jobs reported since they last left, once each, in the order of first report, with the latest payload |
| `InFlight.AfterKeepsDistinct` | apps/worker/src/shadowgen_worker/state.py:189-196 | Every event keeps the ids distinct |
| `InFlight.UpsertFound` | apps/worker/src/shadowgen_worker/state.py:189-194 | A listed job is replaced in place |
| `InFlight.UpsertNew` | apps/worker/src/shadowgen_worker/state.py:195-196 | An unlisted job is appended |
| `InFlight.WithoutFound` | apps/worker/src/shadowgen_worker/state.py:111-129 | A listed job is removed, the others keep their order |
| `WorkerState.WorkerStateService.PublishedMeansHistory` | apps/worker/src/shadowgen_worker/state.py:82-160 | At any time the published list is explained by the calls so far, "processing" iff it is non-empty, current job its head |
| `WorkerState.ReportsKeepConsistent` | apps/worker/src/shadowgen_worker/state.py:82-106 | Submission and poll reports keep status, current job and list consistent |
| `WorkerState.LeavingKeepsConsistent` | apps/worker/src/shadowgen_worker/state.py:108-141 | Finish and failure keep them consistent |
| `WorkerState.OthersKeepConsistent` | apps/worker/src/shadowgen_worker/state.py:70-160 | So do capability refreshes, probes, actions and the idle reset |
| `WorkerState.StampedKeepsConsistent` | apps/worker/src/shadowgen_worker/state.py:167-182 | So do the time stamp and the metadata sync, which leave the list alone |
| `WorkerState.BootedKeepsConsistent` | apps/worker/src/shadowgen_worker/state.py:33-50 | So does boot |
| `WorkerState.HeartbeatThrottle` | apps/worker/src/shadowgen_worker/state.py:56-68 | Over any run of idle heartbeats under a monotone clock with unchanged metadata and status there are at most elapsed / interval + 1 store writes, and after every call the published state is younger than the interval |
| `WorkerState.StampsAreSpaced` | apps/worker/src/shadowgen_worker/state.py:184-187 | Consecutive heartbeat writes are an interval apart |
| `WorkerState.WorkerStateService.Boot` | apps/worker/src/shadowgen_worker/state.py:33-50 | Writes only if something changed |
| `WorkerState.WorkerStateService.HeartbeatIdle` | apps/worker/src/shadowgen_worker/state.py:56-68 | Writes exactly when the status is reset, the metadata is stale or the heartbeat is due |
| `WorkerState.WorkerStateService.JobSubmitted` | apps/worker/src/shadowgen_worker/state.py:82-93 | New state and event of a submission |
| `WorkerState.WorkerStateService.JobPolled` | apps/worker/src/shadowgen_worker/state.py:95-106 | New state and event of a poll |
| `WorkerState.WorkerStateService.JobFinished` | apps/worker/src/shadowgen_worker/state.py:108-124 | New state and event of a finish; the last duration is kept unless the job has both timestamps |
| `WorkerState.WorkerStateService.JobFailed` | apps/worker/src/shadowgen_worker/state.py:126-141 | New state and event of a failure; by stage, which error field is set and that the other one is kept |
| `WorkerState.WorkerStateService.CapabilitiesRefreshed` | apps/worker/src/shadowgen_worker/state.py:70-80 | New state, list untouched |
| `WorkerState.WorkerStateService.DiagnosticProbe` | apps/worker/src/shadowgen_worker/state.py:151-160 | New state, list untouched |
| `WorkerState.WorkerStateService.ActionState` | apps/worker/src/shadowgen_worker/state.py:143-149 | New state, list untouched |
| `WorkerState.WorkerStateService.SyncMetadata` | apps/worker/src/shadowgen_worker/state.py:167-182 | A changed service URL clears what was learnt about the old service |
| `WorkerState.WorkerStateService.UpsertInFlight` | apps/worker/src/shadowgen_worker/state.py:189-196 | The loop replaces the first entry of the job or appends |
| `WorkerState.StampedMeans` | apps/worker/src/shadowgen_worker/state.py:167-182 | Time stamp and metadata sync field by field: a new service address voids what was learnt about the old service, everything else stays |
| `WorkerState.SubmittedMeans` | apps/worker/src/shadowgen_worker/state.py:82-93 | A submission field by field |
| `WorkerState.PolledMeans` | apps/worker/src/shadowgen_worker/state.py:95-106 | A poll field by field |
| `WorkerState.FinishedMeans` | apps/worker/src/shadowgen_worker/state.py:108-124 | A finish field by field; the duration is kept if the job lacks a timestamp |
| `WorkerState.FailedMeans` | apps/worker/src/shadowgen_worker/state.py:126-141 | A failure field by field, by stage |
| `WorkerState.RefreshedMeans` | apps/worker/src/shadowgen_worker/state.py:70-80 | A capability refresh field by field |
| `WorkerState.ProbedMeans` | apps/worker/src/shadowgen_worker/state.py:151-160 | A probe field by field: whose error is shown, and which status |
| `WorkerState.BootedMeans` | apps/worker/src/shadowgen_worker/state.py:33-50 | When boot writes, and what |
| `WorkerState.HeartbeatMeans` | apps/worker/src/shadowgen_worker/state.py:56-68 | When an idle heartbeat writes, and what |
| `LostJobs.LostJobsAreExact` | packages/application/src/shadowgen_application/use_cases/get_system_diagnostics.py:130-166 | In every state the worker publishes, the diagnosis lists exactly the queued or running jobs that nobody has updated for 301 seconds and that are not in flight, each with its age in whole seconds since the last update and with the evidence that is the case, the ones updated longest ago first (to the second) |
| `LostJobs.ReportedIsLost` | packages/application/src/shadowgen_application/use_cases/get_system_diagnostics.py:145-152 | Because "idle with a current job" is unreachable, the guard reduces to "not in flight" |
| `LostJobs.DiagnosedIff` | packages/application/src/shadowgen_application/use_cases/get_system_diagnostics.py:137-152 | Which jobs are diagnosed in an arbitrary worker state: a job the worker names only if it says it is idle |
| `LostJobs.CurrentIdsAreInFlight` | packages/application/src/shadowgen_application/use_cases/get_system_diagnostics.py:132-133 | The current ids are the ids in flight |
| `LostJobs.TiesKeepScanOrder` | packages/application/src/shadowgen_application/use_cases/get_system_diagnostics.py:165 | Jobs of one age stay in scan order |
| `LostJobs.EveryDiagnosisIsEvident` | packages/application/src/shadowgen_application/use_cases/get_system_diagnostics.py:138-150 | In an arbitrary worker state every diagnosis carries the age since the last update and exactly the evidence that is the case |
| `LostJobs.LostIsStale` | packages/application/src/shadowgen_application/use_cases/get_system_diagnostics.py:138-140 | A lost job is stale for job creation too; the two tests differ by less than a second |
| `LostJobs.FindLostJobs` | packages/application/src/shadowgen_application/use_cases/get_system_diagnostics.py:130-166 | The scan computes the specified diagnosis |
| `Sorting.SortDescendingSorts` | packages/application/src/shadowgen_application/use_cases/get_system_diagnostics.py:165 | The sort is a descending permutation |
| `Sorting.SortIsStable` | packages/application/src/shadowgen_application/use_cases/get_system_diagnostics.py:165 | The sort is stable |
| `CacheKey.PayloadIsInjective` | packages/pipeline/src/shadowgen_pipeline/cache_keys.py:11-21 | For arbitrary hash strings, two payloads are equal iff the hashes are equal and the requests agree on every field but the source asset id |
| `CacheKey.KeysAreSharedIff` | packages/pipeline/src/shadowgen_pipeline/cache_keys.py:11-21 | Requests share a key exactly when hashes and normalized requests agree, unless the digest collides on the two payloads |
| `CacheKey.JsonOpensOnce` | packages/pipeline/src/shadowgen_pipeline/cache_keys.py:14-20 | The canonical JSON opens at its first character and nothing inside it looks like that opening |
| `CacheKey.RequestIsCanonical` | packages/pipeline/src/shadowgen_pipeline/cache_keys.py:14-19 | The keys ascend at every level, as `sort_keys` demands |
| `CacheKey.FieldsDetermineRequest` | packages/pipeline/src/shadowgen_pipeline/cache_keys.py:12-15 | Different requests have different JSON values |
| `CacheKey.DecimalRoundTrip` | packages/pipeline/src/shadowgen_pipeline/cache_keys.py:14-19 | A printed natural number reads back |
| `JsonText.PrintIsInjective` | packages/pipeline/src/shadowgen_pipeline/cache_keys.py:14-19 | Two JSON values with the same compact text are the same value |
| `JsonText.EmitIsInjective` | packages/pipeline/src/shadowgen_pipeline/cache_keys.py:14-19 | A printed value can be split from what follows in one way only |
| `JsonText.EscapeRoundTrip` | packages/pipeline/src/shadowgen_pipeline/cache_keys.py:16 | Unescaping an escaped string gives it back, surrogate pairs included |
| `JsonText.CharRoundTrip` | packages/pipeline/src/shadowgen_pipeline/cache_keys.py:16 | Each escaped character is read back whatever follows |
| `JsonText.EscapeIsSelfDelimiting` | packages/pipeline/src/shadowgen_pipeline/cache_keys.py:16 | A quoted string ends at its first unescaped quote |
| `JsonText.PrintIsPrintable` | packages/pipeline/src/shadowgen_pipeline/cache_keys.py:16 | The text is printable ASCII |
| `JsonText.ShortEscapesMean` | packages/pipeline/src/shadowgen_pipeline/cache_keys.py:16 | The characters with a two-character escape, and that the solidus has none |
| `JsonText.LongEscapesMean` | packages/pipeline/src/shadowgen_pipeline/cache_keys.py:16 | Escapes of a control character, a letter beyond ASCII and a character beyond the first plane |
| `JsonText.PlainStays` | packages/pipeline/src/shadowgen_pipeline/cache_keys.py:16 | Printable ASCII but for quote and backslash stands for itself |
| `JsonText.PrintIsCompact` | packages/pipeline/src/shadowgen_pipeline/cache_keys.py:18 | One comma, one colon, no blank |
| `CacheKey.RequestReads` | packages/pipeline/src/shadowgen_pipeline/cache_keys.py:12-15 | Every field of the request is under its name, and nothing else is there |
| `CacheKey.SettingsRead` | packages/pipeline/src/shadowgen_pipeline/cache_keys.py:12-15 | So are the settings, with the names of their choices |
| `ActionStore.EachCommandIsTakenAtMostOnce` | packages/adapters/src/shadowgen_adapters/runtime/memory_worker_action_store.py:12-33 | Over every run with fresh ids each stored command is either waiting once or was handed out once |
| `ActionStore.StoreRefinesQueue` | packages/adapters/src/shadowgen_adapters/runtime/memory_worker_action_store.py:12-33 | Over every run the store hands out what a queue ordered by request time hands out, and ids stay distinct |
| `ActionStore.StepRefinesQueue` | packages/adapters/src/shadowgen_adapters/runtime/memory_worker_action_store.py:12-33 | Every single operation does |
| `ActionStore.TakeStep` | packages/adapters/src/shadowgen_adapters/runtime/memory_worker_action_store.py:16-24 | A take starts the earliest queued action and changes nothing else |
| `ActionStore.DrainsInOrder` | packages/adapters/src/shadowgen_adapters/runtime/memory_worker_action_store.py:16-24 | Without new requests, k takes hand out the first k waiting actions in order: the queued count is a termination measure |
| `ActionStore.QueueConserves` | packages/adapters/src/shadowgen_adapters/runtime/memory_worker_action_store.py:12-24 | Enqueued = taken + waiting, as multisets of ids |
| `ActionStore.WriteBackKeepsQueue` | packages/adapters/src/shadowgen_adapters/runtime/memory_worker_action_store.py:26-33 | Writing back a taken action leaves the queue alone |
| `ActionStore.WaitingIsOrdered` | packages/adapters/src/shadowgen_adapters/runtime/memory_worker_action_store.py:20 | Waiting actions are ordered by request time |
| `WorkerActions.MemoryWorkerActionStore.Enqueue` | packages/adapters/src/shadowgen_adapters/runtime/memory_worker_action_store.py:12-14 | One more item at the end |
| `WorkerActions.MemoryWorkerActionStore.TakeNext` | packages/adapters/src/shadowgen_adapters/runtime/memory_worker_action_store.py:16-24 | The earliest queued action, marked running, leaves the queue |
| `WorkerActions.MemoryWorkerActionStore.Update` | packages/adapters/src/shadowgen_adapters/runtime/memory_worker_action_store.py:26-33 | Replaces the first record of the command or appends |
| `WorkerActions.WorkerActionExecutor.Execute` | apps/worker/src/shadowgen_worker/control_actions.py:45-103 | Never writes "queued"; the first write says running; the returned action is the one stored last, differs from the command only in status, times and error, and is settled, or is an update whose helper was launched; it succeeded only if the effect of its command, and no other, took place; a restart is reported before it takes place, an update helper is launched before it is reported; with self-management off, container commands fail without effect and say so; a failed probe leaves its error |
| `WorkerActions.WorkerActionExecutor.Attempt` | apps/worker/src/shadowgen_worker/control_actions.py:51-93 | What each command does and leaves, by command, and the order of effect and report |
| `WorkerActions.WorkerControlLoop.Tick` | apps/worker/src/shadowgen_worker/control_loop.py:13-18 | Exactly the first waiting command is taken and only its record is written: the turn adds one take and writes of what it took to the store's operations |
| `ActionStore.LeftBehindStays` | packages/adapters/src/shadowgen_adapters/runtime/memory_worker_action_store.py:16-33 | A record that has left the queue stays as it is, and is never handed out again, over every continuation that writes back only what it takes |
| `WorkerActions.TurnIsControlled` | apps/worker/src/shadowgen_worker/control_loop.py:13-18 | Every continuation by turns of the loop writes back only what it takes |
| `WorkerActions.RequestIsControlled` | packages/adapters/src/shadowgen_adapters/runtime/memory_worker_action_store.py:12-14 | So does one by new requests |
| `WorkerActions.LeftRunningStays` | apps/worker/src/shadowgen_worker/control_actions.py:45-103 | A command that its turn left "running" stays so over every continuation by requests and turns |

## Left out

- Texts of trace messages and errors, and the `duration_ms` of a stage: formatting and float rounding.
- Whether the float arithmetic of `total_seconds()` rounds: ages and intervals are exact integers here.
- JSON reading and writing of stored records and messages, temporary files and corrupt files: a stored value is the value that was written.
- Partial writes: record and index entry are written in one step, and a store that raises has written nothing; crashes of a worker process.
- Races between concurrent `CreateJob` calls: lookup, store and the decision are one step of the protocol; the publish after it is a step of its own.
- The in-memory repository hands out its stored objects, so changes show before `update`; repositories here hand out copies.
- The order in which scans list records: any order.
- The cloud queue with its visibility timeout, and the listing and pagination of the object store: foreign libraries. Double delivery appears as the step `Redeliver`, which the safety theorems exclude.
- A state store or configuration store that raises inside `WorkerStateService`: the handler would leave memory ahead of the store.
- What the observer is told of a poll, other than the retry count; the conversion of the probe's answer into the observer's snapshot.
- A thread pool whose `submit` raises, the threads themselves, and `time.sleep` outside the poll loop.
- Clocks that step back: `now` never decreases. UUIDs are fresh.
- ProcessJob.ProcessJobUseCase.Execute: with a poll interval of zero it requires that every poll takes some least time, because otherwise the loop need not end; nothing is assumed for other intervals.
- CreateJob.CreateJobUseCase.Execute: the digest is any function, and the hash that the asset store keeps is its answer, a parameter.
- WorkerState.WorkerStateService.JobFinished: the number of milliseconds is any function of the span, because the source multiplies a float number of seconds.
- Progress.CanBeDrained: no fairness between consumers is modelled; progress is that every way to go on ends drained.
- CacheKey.PayloadIsInjective: numbers are compared by their text, so `0.0` and `-0.0` count as different; strings hold Unicode scalar values, so lone surrogates are not modelled; SHA-256 is not modelled.
- WorkerActions.MemoryWorkerActionStore.TakeNext: the entry is marked in place and then replaced by a copy in the source; with distinct ids both are one replacement, which is what is modelled.
- WorkerActions.WorkerActionExecutor.Execute: Docker, git, process restarts and probes are effects that happen or raise; summaries and log excerpts are omitted.
- The file and object-store variants of the action store, runtime configuration and worker state stores, `list_recent`, `_prioritize_visible_jobs`, queue diagnostics: they repeat a modelled contract or are easy.
- The endless loops `run_forever` of worker and control loop: their turns are modelled.
- HTTP adapters, routes, authentication, the web application and the control page.
