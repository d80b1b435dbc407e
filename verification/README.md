# Recorded-video processing: a verified model

This project models the parts of the recorded-video service that have to survive crashes, concurrency and hostile timing,
and proves what they promise.

- **The job engine** (`Engine`, `EngineInvariant`, `EngineProofs`, `EngineTheorems`, `EngineWork`, `EngineLife`,
  `EngineProgress`, `EngineRetries`, `EngineLosses`, `EngineCancel`, `PipelineProcess`, `Transitions`, `Projection`). One job:
  its leased row, recorded steps, attempt-scoped manifests on disk and the attempt-fenced search projection, together with
  every worker process that ever claimed it. A process may stall between any two of its steps, die, or go on after its lease
  is gone. `EngineProofs.RunKept` keeps one invariant through every legal run; `EngineTheorems` says what it means,
  `EngineWork` bounds the work of every run, `EngineLife` shows that without disturbances a job comes to its end, and
  `EngineRetries` tells which failures are retried. `PipelineProcess` is the pipeline as the program one process executes:
  between any two steps everyone else may do anything legal, each of its steps is proved to be a step of the machine, and
  whatever it does not decide itself is a parameter, so that it stops short only for a cause that can be named.
- **Recovery** (`Recovery`, `ResumedJobs`). The check that compares three jobs before and after a worker restart, and the
  exact condition under which resumed jobs pass it.
- **Deletion** (`Deletion`, `DeletionService`), **upload** (`ChunkFiles`, `Upload`) and the **worker loop** (`Worker`).
- **Supervised logging** (`Supervisor`, `LogLines`, `LogPump`).
- **Exact cores**: segment planning (`Segments`), byte ranges (`ByteRange`) and the canonical event text (`CanonicalText`),
  over `Text`, `Sequences`, `Arithmetic` and `Options`.

A digest is modelled as a constructor application, so equal digests mean equal contents; a stage body is a relation that may
answer differently on every attempt; time is a natural number; clocks, providers, the disk and the index may do anything the
models allow at any moment. `Legal`, `After` and `Reached` speak about arbitrary finite runs from the initial state.

## What turned out false

Each of these is stated with a concrete run or input, and with the condition under which the promise does hold.

- A completed job can lose its documents. An exception that reaches the pipeline after the completing transaction has
  committed, for example the cancellation of the pipeline task by a renewal that finds no lease any more, enters the same
  handler as a failure before it and rolls the projection back
  (`src/vsa_agent/recorded_video/pipeline.py:366-382`, `src/vsa_agent/recorded_video/worker.py:247-270`).
  `EngineLosses.CompletedJobCanLoseItsDocuments` is such a run; `EngineTheorems.CompletedDocumentsIff` says that once the
  process is at rest the documents are there if and only if it was not interrupted. When that rollback itself fails, any part
  of them may be what remains (`EngineLosses.FailedRollbackLeavesAnyPart`), and never anything else
  (`EngineTheorems.OnlyRecordedRemain`).
- A cancelled job can keep a document: a bulk that stalls over the expiry of its lease may land after another worker finished
  the cancellation (`EngineLosses.CancelledJobCanKeepADocument`). A finished cancellation leaves nothing, at once and ever
  after, if no other process of the attempt could still send when its clean-up began (`EngineCancel.SweepLeavesNothing`), and
  if one could, something may remain (`EngineCancel.OtherwiseSomethingRemains`). Search never serves it
  (`EngineTheorems.ServedOnlyWhenRecorded`).
- Recovering an expired lease takes a running job straight back to queued, which the declared transition table does not list
  (`Transitions.RecoveryIsUndeclared`); every other status change of every run is a declared one
  (`Transitions.StatusChangesDeclared`).
- A recorded indexing step does not survive a resume by a later attempt, so the recovery check rejects such a baseline
  (`ResumedJobs.ResumedIndexingIsRejected`). In general a resumed job passes if and only if no process threw a recorded step
  away (`ResumedJobs.RecoversIffNothingDiscarded`); with one configuration and untouched files that is if and only if a
  recorded indexing step was made by the completing attempt (`ResumedJobs.ResumedJobRecoversIff`).
- Deleting an asset that is still uploading leaves no deletion request behind, so a job may start and publish after the
  projection step was recorded (`Deletion.DeletingAnUploadCanLeaveDocuments`); and a repeated last-chunk request is still
  served during a deletion and assembles the source again (`Deletion.RepeatedChunkCanLeaveTheSource`). Something is left of a
  deleted asset if and only if a live writer came back to it after the step was last operated on
  (`Deletion.DeletedLeavesIff`); a request that finds the upload over and no job process alive leaves no document and no
  derived file, and nothing at all while no upload request is alive (`Deletion.QuietDeletionLeavesNothing`).
- The publication guard still passes after a terminal status transition whose marker and failure event both failed, and one
  torn log line hides a whole failure event (`Supervisor.UnsecuredTransitionIsInvisible`). An event that lacks only its line
  end is found, but only until the next write (`Supervisor.UnendedEventReopens`). `Supervisor.TransitionSeals` says exactly
  when the guard is shut at once, and when for good.
- Retrying a failed job makes it eligible for another attempt only if it has one left. A job that failed on its last attempt
  is claimed under the next one, refused as exhausted and failed again, so it never completes, however often it is retried
  (`EngineRetries.ExhaustedNeverCompletes`); that is the end of every failure that was worth a retry and was not given one any
  more (`EngineRetries.GivenUpForGood`). With an attempt left the retry can complete the job
  (`EngineRetries.RetriedFailureCompletes`). See `src/vsa_agent/recorded_video/repository.py:1284-1317` and
  `src/vsa_agent/recorded_video/worker.py:171-173`.
- Representative frames of a segment shorter than one millisecond per frame coincide (`Segments.ShortSegmentRepeatsAFrame`,
  `Segments.DistinctFramesIff`).
- A satisfiable byte range with a number of more than 4300 digits is refused (`ByteRange.LongZeroIsRefused`,
  `ByteRange.StartEndAgreesIff`).

## Model

| member | source | states |
|---|---|---|
| Projection.ProjectionStore.Project | src/vsa_agent/recorded_video/es_index.py:334-373 | nothing is written unless every document is valid, of this call's job and attempt, and of one embedding contract; then the index is the bulk's outcome and every document is reported in exactly one of the two lists |
| Projection.ProjectionStore.DeleteProjection | src/vsa_agent/recorded_video/es_index.py:375-422 | exactly the documents of this asset, job and attempt whose removal does not fail go, every other one stays unchanged, and success means none of the attempt is left |
| Projection.ProjectionStore.DeleteAsset | src/vsa_agent/recorded_video/es_index.py:389-422 | exactly the documents of this asset whose removal does not fail go, and success means none is left |
| Projection.BulkOutcome | src/vsa_agent/recorded_video/es_index.py:424-444 | for each identity any bulk leaves the last accepted document, unless a higher attempt's was there; an identity of which nothing was accepted is untouched |
| Projection.AcknowledgedExactly | src/vsa_agent/recorded_video/pipeline.py:334-344 | the publish check on failed, counted and compared identities passes exactly when every document was accepted |
| Projection.RollbackUndoesBulk | src/vsa_agent/recorded_video/es_index.py:375-444 | after any bulk and its rollback a document is there if and only if it was there before and was not replaced, and it is unchanged |
| EngineProofs.RunKept | src/vsa_agent/recorded_video/pipeline.py:191-382 | the invariant of store, disk, index and all processes holds after every legal run, with any number of stalled, dead and resumed processes |
| EngineProofs.OtherKept | src/vsa_agent/recorded_video/pipeline.py:835-850 | a step of one process never breaks what holds of another, however far behind either is |
| EngineProofs.WriteCheckpoints | src/vsa_agent/recorded_video/pipeline.py:828-833 | a manifest written by a process that lost its lease long ago still holds every entry that recorded steps point to |
| EngineProofs.NeverAdopts | src/vsa_agent/recorded_video/pipeline.py:225-228 | a checkpoint without a recorded step is never adopted: the new attempt's own manifest cannot hold a valid one yet |
| EngineTheorems.CheckpointsHold | src/vsa_agent/recorded_video/pipeline.py:191-269 | recorded steps are a prefix with nondecreasing attempts; each one's undamaged manifest holds an entry with the recorded checksum, chained to the step before |
| EngineTheorems.FinishedIsAChain | src/vsa_agent/recorded_video/pipeline.py:271-319 | in a completed job each output was produced and accepted on exactly the recorded outputs before it, under one configuration, and indexing belongs to the completing attempt |
| EngineTheorems.ResumeEqualsCleanRun | src/vsa_agent/recorded_video/pipeline.py:191-319 | with deterministic stages a completed job's outputs are those of one undisturbed run, after any interruptions |
| EngineTheorems.ReusedPrefixExecutedSuffix | src/vsa_agent/recorded_video/pipeline.py:198-243 | in each pipeline run the reused stages are a prefix and the executed ones a suffix that contains indexing |
| EngineTheorems.ReusedIff | src/vsa_agent/recorded_video/pipeline.py:198-243 | a process with the claim skips a stage exactly when its recorded step points to an undamaged manifest entry with the recorded checksum, made from the very outputs before it under its own configuration, that the validator accepts, and the artifact files match; otherwise it goes on to execute the stage |
| EngineProofs.DecideIndexing | src/vsa_agent/recorded_video/pipeline.py:687-770 | the indexing step of another attempt is never reused, because its documents bind that attempt |
| EngineTheorems.StartsBounded | src/vsa_agent/recorded_video/worker.py:171-173 | at most `max_attempts` pipeline runs ever start, manual retries included, each under its own attempt |
| EngineTheorems.LaterRetriesWaitLonger | src/vsa_agent/recorded_video/worker.py:331-357 | a retry is scheduled only below the bound; a later one of the same job is of a strictly higher attempt and never waits for less |
| EngineRetries.RetriedIff | src/vsa_agent/recorded_video/worker.py:331-372 | an attempt that failed while its claim holds is settled as a retry, with the delay of its attempt, if and only if its last failing event was worth a retry and an attempt is left, and as failed for good otherwise |
| EngineRetries.SettlesItsFailure | src/vsa_agent/recorded_video/worker.py:187-201 | a live process that failed and keeps its claim can, by its own steps, undo its projection and settle its failure in just that way |
| EngineRetries.RetryWaitsItsDelay | src/vsa_agent/recorded_video/worker.py:347-357 | whatever happens in between, the next claim after a scheduled retry comes no earlier than 30, 120 or 600 seconds later, by attempt |
| EngineRetries.RenewedClaimsAreKept | src/vsa_agent/recorded_video/repository.py:1465-1542 | as long as a process renews in time and does not give its claim up, at work or cleaning up, it holds the live lease and nobody claims the job |
| EngineRetries.ReleasedClaimCostsNothing | src/vsa_agent/recorded_video/repository.py:1544-1582 | a claim that is handed back before anything ran leaves the job as it was, due at once and with no attempt used |
| EngineRetries.RetriedFailureCompletes | src/vsa_agent/recorded_video/repository.py:1284-1317 | an operator's retry of a failed job with an attempt left can be carried to its completion |
| EngineRetries.ExhaustedNeverCompletes | src/vsa_agent/recorded_video/worker.py:171-173 | a job that failed with no attempt left never completes in any continuation, retries included |
| EngineRetries.GivenUpForGood | src/vsa_agent/recorded_video/worker.py:346-372 | a failure that was worth a retry but is settled as final is therefore beyond an operator's retry |
| EngineTheorems.CompletedJobsKeepDocuments | src/vsa_agent/recorded_video/pipeline.py:321-382 | while a completed job's asset is not being deleted and its process was not interrupted, the documents of its attempt in the index are exactly the recorded ones |
| EngineTheorems.CompletedDocumentsIff | src/vsa_agent/recorded_video/pipeline.py:366-382 | once the completing process has come to rest, the documents are there if and only if no exception followed the commit |
| EngineTheorems.OnlyRecordedRemain | src/vsa_agent/recorded_video/pipeline.py:366-382 | however its process ended, a completed job has only recorded documents of its attempt in the index |
| EngineTheorems.ServedOnlyWhenRecorded | src/vsa_agent/tools/embed_search.py:381-420 | a document whose readiness identity is accepted is a recorded document of the completing attempt |
| EngineTheorems.CompensatedLeavesNothing | src/vsa_agent/recorded_video/pipeline.py:372-382 | after a successful rollback, a failure before publication, or the clean-up of its own attempt, no document of the attempt is left, and none comes back |
| EngineTheorems.NeverByALowerAttempt | src/vsa_agent/recorded_video/es_index.py:375-444 | in every step of anyone a document is replaced only by its own or a higher attempt, and removed only by exact attempt or with its asset while no job runs |
| EngineWork.EveryStepWorks | src/vsa_agent/recorded_video/pipeline.py:157-392 | every step of a process but fencing, renewing and dying brings it nearer to its end, in whatever state the job is |
| EngineWork.WorkIsBounded | src/vsa_agent/recorded_video/worker.py:331-357 | over any run the claims and steps are no more than the attempts, and one claim for each release, expiry or manual retry, can cost |
| EngineWork.OwnWorkIsBounded | src/vsa_agent/recorded_video/worker.py:133-201 | from any point on one process takes boundedly many steps, whatever becomes of its lease and however others interfere |
| EngineLife.HolderGoes | src/vsa_agent/recorded_video/worker.py:159-201 | while its lease is live and nothing rests, the process with the claim can go on, and fails only when its stage has no answer or the index refused a document |
| EngineLife.IndustryEnds | src/vsa_agent/recorded_video/worker.py:133-201 | from every state in which nothing rests, time, due claims and diligent steps alone bring the job to its end; with answering stages and an attempt left or well under way that end is its completion |
| EngineLife.ExhaustedMeansOver | src/vsa_agent/recorded_video/worker.py:133-201 | a job on which no more work is possible without a disturbance is completed, failed or cancelled, unless its lease is over, its process dead, or a clean-up failed |
| EngineLife.AttemptLeftCompletes | src/vsa_agent/recorded_video/pipeline.py:191-319 | a queued or retried job with an attempt left can be completed without a disturbance, whatever its earlier attempts left behind |
| EngineLife.NeverStuck | src/vsa_agent/recorded_video/repository.py:1348-1463 | from every reachable state, whatever has crashed, one noticed expiry and one take-over are all that is needed besides industry to end the job |
| EngineProgress.CleanRunCompletes | src/vsa_agent/recorded_video/pipeline.py:157-392 | an undisturbed first attempt completes with any outputs its stages can produce |
| EngineLosses.BulkIsItsSteps | src/vsa_agent/recorded_video/pipeline.py:326-344 | the sends of one process, one after the other, are the bulk of the projection, and the process counts a refusal exactly when the check on the acknowledged identities fails |
| EngineLosses.FailedPublicationRestores | src/vsa_agent/recorded_video/pipeline.py:326-382 | a publication that fails after any bulk and is rolled back leaves the index as it was, but for documents of lower attempts that an accepted one replaced |
| EngineLosses.FailedRollbackLeavesAnyPart | src/vsa_agent/recorded_video/pipeline.py:374-382 | when the rollback after the commit itself fails, any part of the documents, all and none included, can be what remains |
| EngineLosses.InterruptedCompletionLosesDocuments | src/vsa_agent/recorded_video/pipeline.py:366-382 | from any committed completion an exception leads to a completed job without its documents |
| EngineLosses.CompletedJobCanLoseItsDocuments | src/vsa_agent/recorded_video/pipeline.py:366-382 | a concrete run that ends completed with every recorded document gone |
| EngineLosses.LateBulkSurvivesCancel | src/vsa_agent/recorded_video/worker.py:286-309 | a stalled bulk can land after another owner's clean-up and finished cancellation |
| EngineLosses.CancelledJobCanKeepADocument | src/vsa_agent/recorded_video/worker.py:286-309 | a concrete run of that kind |
| EngineCancel.SweepLeavesNothing | src/vsa_agent/recorded_video/pipeline.py:852-886 | when no other process of the attempt can still send as a clean-up begins, the finished cancellation leaves no document of the attempt, whatever everyone does, and none comes back |
| EngineCancel.OtherwiseSomethingRemains | src/vsa_agent/recorded_video/pipeline.py:852-886 | when one can, the cancellation can be finished with one of its documents in the index |
| EngineCancel.CancellationIsFinal | src/vsa_agent/recorded_video/repository.py:1944-1958 | a cancellation that reaches a job before its end is final: a waiting job is cancelled at once, a running one passes no fence any more, is never completed, failed or retried, and can only end cancelled |
| PipelineProcess.Process.Run | src/vsa_agent/recorded_video/pipeline.py:157-392 | the whole pipeline program refines the machine; it returns with every recorded document in the index, or ends with none of its attempt unless the rollback itself failed; it stops short only after its claim lapsed at some point of the run, an awaited operation raised, a stage gave no acceptable answer or a document was refused, so a live claim with an attempt left that meets none of these returns |
| PipelineProcess.Process.CancelPoint | src/vsa_agent/recorded_video/pipeline.py:842-886 | goes on under the live uncancelled lease, and stops, with a clean-up or an error, only when the claim did not pass the fence at some state since the call |
| PipelineProcess.Process.Lapse | src/vsa_agent/recorded_video/pipeline.py:842-886 | a lapsed claim ends cleaned up exactly when its lease was live, its cancellation requested and no removal raised |
| PipelineProcess.Process.Look | src/vsa_agent/recorded_video/pipeline.py:200-243 | one stage further exactly when the checkpoint passes the reuse checks, and otherwise ready to discard the recorded steps or to execute |
| PipelineProcess.Process.Transact | src/vsa_agent/recorded_video/pipeline.py:231-269 | under a claim that did not lapse the fenced repository transaction commits |
| PipelineProcess.NeverLapses | src/vsa_agent/recorded_video/pipeline.py:835-850 | a process that acts alone from a live claim never finds it lapsed |
| PipelineProcess.Process.Decision | src/vsa_agent/recorded_video/pipeline.py:200-243 | either one stage further by reuse, or ready to execute with the recorded steps from there on discarded |
| PipelineProcess.Process.Execution | src/vsa_agent/recorded_video/pipeline.py:245-252 | an acceptable answer of the stage body is what the process goes on with, and without one it ends in an error that is retryable exactly as the stage says |
| PipelineProcess.Process.Checkpoint | src/vsa_agent/recorded_video/pipeline.py:253-269 | the manifest is replaced before the step that points to it is recorded |
| PipelineProcess.Process.Project | src/vsa_agent/recorded_video/pipeline.py:326-344 | the bulk gets through exactly when the index accepts every document, and fails retryably otherwise |
| PipelineProcess.Process.Publish | src/vsa_agent/recorded_video/pipeline.py:321-382 | committed and undisturbed at the commit, or stopped with its compensation |
| PipelineProcess.Process.RollBack | src/vsa_agent/recorded_video/pipeline.py:374-382 | always comes to an end, with the failure it began with, and counts as through exactly when no removal raised |
| Transitions.StatusChangesDeclared | src/vsa_agent/recorded_video/models.py:191-215 | a status change is a declared transition if and only if it is not the recovery of an expired, uncancelled lease |
| Transitions.RecoveryIsUndeclared | src/vsa_agent/recorded_video/repository.py:1348-1388 | a concrete run to a recovery that takes a running job straight back to queued |
| Transitions.FinalForever | src/vsa_agent/recorded_video/models.py:191-207 | completed and cancelled jobs never change status again |
| Recovery.AssertRecovery | src/vsa_agent/recorded_video/production_acceptance.py:1117-1163 | the loops accept exactly the pairs of snapshots in which each job recovered, assets and segments are distinct, and some attempt grew |
| Recovery.CheckJob | src/vsa_agent/recorded_video/production_acceptance.py:1124-1155 | one job is accepted exactly when its identity, completed checkpoints and segments are kept and its attempt did not go back; each rejection names what is wrong |
| Recovery.LookForBaseline | src/vsa_agent/recorded_video/production_acceptance.py:1082-1110 | when to interrupt: failed and all-completed are too late, a checkpoint with a job in flight is the moment |
| ResumedJobs.IntactStepsAreReusable | src/vsa_agent/recorded_video/pipeline.py:200-224 | with one configuration and intact files every recorded step before indexing passes all reuse checks of the current attempt |
| ResumedJobs.AttemptsGrow | src/vsa_agent/recorded_video/production_acceptance.py:1129-1132 | a finished job's attempt is no lower than any it had before, handed-back claims included |
| ResumedJobs.IndexingSurvivesIff | src/vsa_agent/recorded_video/production_acceptance.py:1136-1151 | a recorded indexing step is unchanged at the end exactly when its attempt is the completing one |
| ResumedJobs.RecoversIffNothingDiscarded | src/vsa_agent/recorded_video/production_acceptance.py:1124-1155 | a resumed job passes the check on it exactly when no process threw away a step recorded before, for all configurations, damages and interruptions |
| ResumedJobs.ResumedJobRecoversIff | src/vsa_agent/recorded_video/production_acceptance.py:1124-1155 | with one configuration and untouched files that is exactly when a recorded indexing step was of the completing attempt |
| ResumedJobs.ResumedIndexingIsRejected | src/vsa_agent/recorded_video/production_acceptance.py:1136-1151 | a concrete run whose baseline holds an indexing step of a failed attempt and is rejected after the job completed |
| ResumedJobs.InterruptedJobsPassIff | src/vsa_agent/recorded_video/production_acceptance.py:1117-1163 | three resumed jobs pass the whole check exactly when none threw a recorded step away and some attempt changed |
| Deletion.RecordedPrefix | src/vsa_agent/api/recorded_video.py:101-134 | recorded steps are always a prefix of projection, derived, source, upload |
| Deletion.RemovedInOrder | src/vsa_agent/api/recorded_video.py:101-134 | nothing is removed before all earlier steps are recorded |
| Deletion.SourceAfterProjection | src/vsa_agent/api/recorded_video.py:101-109 | while the projection step is unrecorded the derived files, the source and the upload are untouched |
| Deletion.RecordedLeavesIff | src/vsa_agent/recorded_video/repository.py:1862-1895 | what a recorded step removes is there if and only if a live writer put it back after it was last removed |
| Deletion.DeletedLeavesIff | src/vsa_agent/api/recorded_video.py:83-136 | a deleted asset has nothing left if and only if no writer came back after the steps were last operated on |
| Deletion.QuietDeletionLeavesNothing | src/vsa_agent/recorded_video/repository.py:1768-1804 | a request that finds the upload over, no job process alive and no step half done leaves no document and no derived file, at the deletion and ever after, and nothing at all without upload requests |
| Deletion.DeletedMeansRecorded | src/vsa_agent/api/recorded_video.py:107-136 | an asset is deleted, and reported deleted, only with all four steps recorded, no claim left and no job running |
| Deletion.LaterDeletesChangeNothing | src/vsa_agent/api/recorded_video.py:93-94 | in any continuation after a deletion no request, retry or stalled request changes the durable records |
| Deletion.GuardedRequestsKeepJobsOut | src/vsa_agent/recorded_video/repository.py:1768-1804 | after a request found the asset not uploading, no job of it runs or can start until it is deleted |
| Deletion.UndisturbedRequestDeletes | src/vsa_agent/api/recorded_video.py:83-136 | wherever earlier requests died, a fresh one left alone after their claims expired deletes the asset |
| Deletion.LiveClaimExcludes | src/vsa_agent/recorded_video/repository.py:1806-1895 | the claim of a step is changed by nobody but its owner until it is over, and as long as it lasts no other request begins to operate on that step |
| Deletion.DeletingAnUploadCanLeaveDocuments | src/vsa_agent/recorded_video/repository.py:1781-1782 | a concrete run: a request during the upload, then the upload completes, a job starts and publishes, and the deleted asset keeps the documents |
| Deletion.RepeatedChunkCanLeaveTheSource | src/vsa_agent/api/recorded_video.py:335-370 | a concrete run of a guarded request: a repeated last chunk arrives after the source was removed, and the deleted asset keeps it |
| DeletionService.Deleter.Delete | src/vsa_agent/api/recorded_video.py:83-136 | the request program refines the saga; it reports deleted only for a closed asset with all steps recorded, pending only if a job ran or another request held a live claim meanwhile, and raises only if an operation failed, its claim was lost or a job ran; alone and without a failure it deletes |
| DeletionService.Deleter.Step | src/vsa_agent/api/recorded_video.py:107-134 | one step ends done, pending while another request holds its claim, or raised for a failed operation or a lost claim |
| ChunkFiles.SplitFile | src/vsa_agent/recorded_video/production_acceptance.py:832-851 | the chunks are as many as the ceiling quotient, concatenate to the file, and meet the header rules |
| ChunkFiles.ChunkStore.WriteChunk | src/vsa_agent/recorded_video/assets.py:110-156 | success leaves exactly these bytes, failure finds others, and a present chunk is never changed, under any interference |
| ChunkFiles.ChunkStore.AssembleSource | src/vsa_agent/recorded_video/assets.py:169-206 | the copy loop gives the chunks in order, and nothing while one is missing |
| ChunkFiles.AssemblyUndoesTheCut | src/vsa_agent/recorded_video/assets.py:158-206 | assembling the chunks of a cut file gives back the file |
| Upload.QuotaHolds | src/vsa_agent/recorded_video/repository.py:607-634 | reserved and confirmed bytes never exceed the quota under racing requests |
| Upload.PublishedNeverChanges | src/vsa_agent/recorded_video/assets.py:133-148 | a published chunk keeps its bytes through every later step of any request |
| Upload.SuccessMeansStored | src/vsa_agent/api/recorded_video.py:321-346 | a request answered with success finds exactly its bytes in the chunk file, its row confirmed, and the session with its number of chunks |
| Upload.WelcomeSucceeds | src/vsa_agent/api/recorded_video.py:321-346 | in any state a request for the bound session with a new chunk inside the quota, or the same bytes of an expired reservation, and no other bytes in its chunk file is answered with success by its own three steps, and stores just its chunk |
| Upload.RepeatSucceeds | src/vsa_agent/recorded_video/repository.py:573-580 | a repeated chunk that is already confirmed is answered with success at once and changes nothing |
| Upload.EverythingElseFails | src/vsa_agent/api/recorded_video.py:347-356 | every other request is refused, undisturbed as it may be; it changes no chunk file, no confirmed row, and leaves no reservation behind |
| Upload.UploadRoundTrip | src/vsa_agent/api/recorded_video.py:296-384 | file to file: when every chunk of a cut file was answered with success, in any order and among any other requests, the session is complete with as many chunks as the cut, and what the server assembles is the file |
| Upload.EveryFileArrives | src/vsa_agent/api/recorded_video.py:296-384 | for every file inside the quota and every chunk size there is a run in which all requests are answered with success and the server assembles the file |
| Upload.ConfirmedCanBeAssembled | src/vsa_agent/recorded_video/repository.py:862-931 | with all chunks confirmed the source can be assembled and its size is the confirmed size |
| Worker.ActiveJobsBounded | src/vsa_agent/recorded_video/worker.py:133-160 | active jobs never exceed the concurrency |
| Worker.LateClaimsAreReleased | src/vsa_agent/recorded_video/worker.py:146-158 | a claim returned after the stop is handed back, lost, or ends in an error of that call, and is never run |
| Worker.LostLeaseRecordsNothing | src/vsa_agent/recorded_video/worker.py:247-270 | a cycle that lost its lease or saw the cancellation gets no failure recorded, and finishes a cancellation only after seeing it and cleaning up |
| Worker.LossIsFinal | src/vsa_agent/recorded_video/repository.py:1703-1726 | a claim found lost or cancelled never passes a fence again, in any continuation with other workers, the operator and the clock |
| Worker.OneOutcome | src/vsa_agent/recorded_video/worker.py:146-201 | a claim is settled at most once, as released, failed or retried, cancelled after a clean-up, or completed, and is gone from then on; Worker.RecordedForCause and Worker.DueJobCompletes say when and that it is |
| Worker.RecordedForCause | src/vsa_agent/recorded_video/worker.py:162-201 | the pipeline is started only within the attempts a job has; a failure is recorded only after one or beyond the last attempt, and without a pipeline run only after a failed query or beyond the last attempt |
| Worker.ClaimedJobsStart | src/vsa_agent/recorded_video/worker.py:162-174 | a claimed job that is neither cancelled nor out of attempts is run |
| Worker.RetriedIff | src/vsa_agent/recorded_video/worker.py:331-372 | a failure recorded under the claim makes the job due again if and only if the last failure of the cycle was worth a retry and an attempt is left |
| Worker.DueJobCompletes | src/vsa_agent/recorded_video/worker.py:133-201 | a worker with a free permit that is not stopping completes a due job with an attempt left, left alone |
| Worker.CancelledJobIsCleanedUp | src/vsa_agent/recorded_video/worker.py:162-185 | a cancelled job whose lease is over is claimed, cleaned up without being run, and finished |
| Worker.RenewalLasts | src/vsa_agent/recorded_video/worker.py:277-329 | a renewal keeps the claim as it stands for the whole lease |
| Worker.LateClaimIsGivenBack | src/vsa_agent/recorded_video/worker.py:146-158 | a late claim that still stands makes the job due again under the attempt it had |
| Worker.EnqueuedJobCompletes | src/vsa_agent/recorded_video/worker.py:133-201 | from the start an enqueued job can be claimed and completed |
| Worker.NothingNewAfterStop | src/vsa_agent/recorded_video/worker.py:133-158 | after the stop no cycle begins and no job becomes active any more, in any continuation |
| Supervisor.TransitionKeepsOrder | scripts/runtime-log-supervisor.py:269-343 | the supervisor never asks for a forbidden transition, and the status on disk follows the graph whatever fails |
| Supervisor.TransitionSeals | scripts/runtime-log-supervisor.py:643-686 | a terminal transition shuts the guard if and only if its marker, or its failure event but for the line end, got through, and for good if and only if the line end did, too |
| Supervisor.SealsStay | scripts/runtime-log-supervisor.py:643-686 | what is sealed for good stays sealed through any later transition |
| Supervisor.EventAppears | scripts/runtime-log-supervisor.py:216-225 | a failure event is found exactly when it got onto a line of its own, and for good exactly with its line end |
| Supervisor.Stack.WriteStatus | scripts/runtime-log-supervisor.py:643-686 | pending marker, status, clear: the new component, log, running and sealed set, for every fault of every file operation |
| Supervisor.Stack.Publish | scripts/runtime-log-supervisor.py:185-225 | a guarded line is written exactly when the guard passes: never for a component that has not been running or was sealed, and always while every required component is up and no failure is reported |
| Supervisor.Stack.Run | scripts/runtime-log-supervisor.py:185-266 | any sequence of critical sections of any processes has just the effect of its sections and keeps all of this |
| Supervisor.UnsecuredTransitionIsInvisible | scripts/runtime-log-supervisor.py:661-668 | a line is published after a component's unsecured exit |
| Supervisor.UnendedEventReopens | scripts/runtime-log-supervisor.py:216-225 | an event without its line end shuts the guard until the next line, after which the exited component passes it again |
| LogLines.ReadStream | scripts/lib/RuntimeLogPump.cs:183-227 | the entries depend on the characters only, for every division into reads |
| LogLines.RestMeans | scripts/lib/RuntimeLogPump.cs:193-221 | in any state of the reader the entries still to come are the lines of what is buffered and unread |
| LogLines.EntriesKeepTheText | scripts/lib/RuntimeLogPump.cs:193-226 | no entry exceeds the limit or holds a terminator, and together they are the text without terminators |
| LogLines.LinesAreReadBack | scripts/lib/RuntimeLogPump.cs:196-210 | lines written with any unambiguous mix of terminators are read back as they were |
| LogPump.Pump.Perform | scripts/lib/RuntimeLogPump.cs:183-306 | each step of a reader or the consumer conserves both streams, keeps the queue bounded, publishes in queue order, and leaves one step less to do |
| LogPump.Pump.EndReader | scripts/lib/RuntimeLogPump.cs:246-252 | adding is completed by the second reader to end |
| LogPump.Pump.Run | scripts/lib/RuntimeLogPump.cs:183-306 | every schedule keeps the pump valid, and gets something done if it holds a step that can be done |
| LogPump.Pump.RunToEnd | scripts/lib/RuntimeLogPump.cs:183-306 | all threads come to their end if nothing else goes wrong, also after a cancellation |
| LogPump.Pump.Complete | scripts/lib/RuntimeLogPump.cs:122-160 | the first call ends completed, failed or timed out exactly as the threads stand, cancels unless it completed, times out only if the deadline passed and fails only if a step did; without a cancellation a completion means every entry of both streams was published once and in order; a later call returns at once |
| LogPump.PumpProcess | scripts/lib/RuntimeLogPump.cs:62-306 | from both streams to the log: an uncancelled completion has published exactly the lines of each stream in order, for every division into reads and every schedule, and with time enough and no failure that is how it ends |
| LogPump.NoDeadlock | scripts/lib/RuntimeLogPump.cs:183-285 | until all is drained some thread can go on |
| LogPump.CompletedBySecondReader | scripts/lib/RuntimeLogPump.cs:246-252 | without failure adding is completed exactly when both readers have ended |
| Segments.Plan | src/vsa_agent/recorded_video/segmenter.py:26-46 | the loop yields one segment for every multiple of the step inside the video |
| Segments.PlanIsComplete | src/vsa_agent/recorded_video/segmenter.py:26-46 | a plan passes the pipeline's validator exactly for a positive duration |
| Segments.PlanIsEven | src/vsa_agent/recorded_video/segmenter.py:32-33 | all segments but the last are full |
| Segments.ValidateSegments | src/vsa_agent/recorded_video/pipeline.py:588-612 | the single pass accepts exactly the complete cuts of the asset |
| Segments.ExactlyOneSegment | src/vsa_agent/recorded_video/pipeline.py:588-612 | every instant of the video lies in exactly one segment of an accepted cut |
| Segments.SegmentNameInjective | src/vsa_agent/recorded_video/models.py:218-220 | the names behind the segment identifiers differ for different assets, versions or ordinals |
| Segments.FrameOffsets | src/vsa_agent/recorded_video/media.py:104-127 | the offsets of the representative frames, and both refusals |
| Segments.FramesInside | src/vsa_agent/recorded_video/media.py:126-127 | every frame lies inside its segment, in order |
| Segments.DistinctFramesIff | src/vsa_agent/recorded_video/media.py:126-127 | all frames are at different offsets exactly when the segment has a millisecond for each |
| Segments.ShortSegmentRepeatsAFrame | src/vsa_agent/recorded_video/media.py:104-127 | both of two frames of a segment of one millisecond are at the same offset |
| ByteRange.Select | src/vsa_agent/api/recorded_video_vst.py:80-96 | a range selects exactly the bytes it asks for, and nothing only if it asks for none |
| ByteRange.StartEndAgreesIff | src/vsa_agent/api/recorded_video_vst.py:72-96 | a start-end range selects what section 14.1.2 of RFC 9110 says (see ByteRange.Select), exactly up to the integer length limit |
| ByteRange.SuffixAgreesIff | src/vsa_agent/api/recorded_video_vst.py:81-86 | the same for suffix ranges |
| ByteRange.LongZeroIsRefused | src/vsa_agent/api/recorded_video_vst.py:72-96 | a concrete satisfiable header, byte zero written with too many zeros, that is refused |
| ByteRange.AcceptedAreRanges | src/vsa_agent/api/recorded_video_vst.py:72-96 | every accepted header is a single byte range and selects what the standard says |
| ByteRange.AnsweredByteByByte | src/vsa_agent/api/recorded_video_vst.py:72-96 | a range in digits is refused exactly when it asks for no byte of the representation or has a number too long to convert; otherwise byte n is selected if and only if first <= n <= last, or no last, and n < size, and for a suffix size - length <= n < size |
| ByteRange.IgnoredIff | src/vsa_agent/api/recorded_video_vst.py:99-101 | a range is ignored exactly when another unit stands before the first equals sign |
| ByteRange.IterMediaRange | src/vsa_agent/recorded_video/assets.py:237-265 | the yielded chunks concatenate to exactly the slice, whatever each read returns |
| ByteRange.Media | src/vsa_agent/api/recorded_video_vst.py:233-266 | whole, partial or unsatisfiable response; body, content range and content length agree, the partial body has exactly the bytes that were asked for, and the unsatisfiable answer comes exactly when there is none or a number is too long |
| CanonicalText.ParsePrint | src/vsa_agent/privacy/schemas.py:207-228 | the parser undoes the printer |
| CanonicalText.SortedAlikeIff | src/vsa_agent/privacy/schemas.py:210-223 | sorting by name forgets exactly the order |
| CanonicalText.SameTextIff | src/vsa_agent/privacy/schemas.py:97-120 | two valid events print alike exactly when they differ at most in the order of their lists |
| CanonicalText.HelmetOffText | src/vsa_agent/privacy/schemas.py:207-228 | the whole text of one event letter by letter, with its lists out of order and every status of protective equipment |

## Left out

- EngineTheorems.ReusedPrefixExecutedSuffix: speaks of the stages a run got to; that each is executed at most once is how the machine moves on, not a separate clause.
- EngineWork.WorkIsBounded: takes a bound on the documents of one attempt as a parameter, which the indexing validator derives from the number of segments.
- LogPump.Pump.Complete: a cancellation from outside that ends all threads without a failure is also reported as completed; the clause on completeness therefore asks for no cancellation.
- Worker.LostLeaseRecordsNothing: what other workers do to a job under their own lease is arbitrary here; that they are fenced in turn is the subject of the job engine.
- Worker.RetriedIff: the rows of the worker model carry no date, so a retried job is due at once; its delay is the subject of EngineRetries.RetryWaitsItsDelay.
- PipelineProcess.Process.Run: the death of the process in the middle of its program is an event of the machine only, and after the commit only an exception, no event of others, is looked at.
- One machine holds one job of one asset and pipeline version; other jobs meet it only in the recovery check, and the order in which several due jobs are claimed is not modelled.
- A newer pipeline version that supersedes the current job of an asset, and asset statuses other than uploading and deleted.
- The two reads of a candidate manifest in one reuse decision are one step; the model and elapsed-time columns of a step are not kept.
- Artifact files are one nondeterministic answer to the checksum check of the extraction stage; the shared playback proxy, temporary files and their clean-up are not modelled.
- The search index applies one document operation at a time and sees its own writes; refresh delay and a request that lands after its client gave up are not modelled.
- All processes share one clock; skew between workers is not modelled.
- The fields of providers' answers: stage outputs are opaque but for the documents of the indexing stage, and the validators of the other stages are a parameter, except the one of the segments.
- Database transactions are atomic; SQL, connections and integrity errors are not modelled.
- The worker's outer polling loop, heartbeats, readiness payloads and event emission.
- Chunk files removed by the expiry or deletion of an upload session while requests are running; only a single chunk write is proved against that.
- Completing an upload by the request that carries the last-chunk header, when other chunks arrive later: assembly is modelled at the store, in any order of arrival.
- Redaction patterns, encodings and the console copies of log lines; the lengths of waits.
- Process trees, signals, job objects and the supervisor's handling of its workload; a crash between two file operations of one status transition.
- Provider clients, ffmpeg and ffprobe, the search mapping and alias bootstrap, chat, search routing, reports, the user interface and configuration loading.
- Query classification and the keyword projection of descriptions onto safety events.
- Playback offsets, storage figures and time formatting of the compatibility endpoints.
