# Verification of the chunked video pipeline

A video is cut into overlapping chunks. Each chunk passes through ingest, cut detection, the coordinator,
tracking and the aggregator, which talk through Redis Streams with at-least-once delivery. This project
models that pipeline in Dafny 4.11 and proves that chunking, duplication, reordering and crash replay give
the answer of one pass over the whole video. `dafny verify dfyconfig.toml` checks everything.

The project has four layers.

1. **The task record and its protocol.** `TaskRepository` holds the Redis record of one task as a class whose
   methods are the Lua scripts, each proved equal to a function on record values. `DispatchOrder` shows what
   the dispatch loop does over any sequence of deliveries. `Pipeline` is a transition system: ingest handlers,
   workers and failures interleave at the granularity of one Redis call, with stale reads, crashes, lost
   replies and any number of deliveries of any stream entry in any order. `TaskInvariant` and
   `PipelineInvariant` carry one inductive invariant through it, `PipelineTheorems` reads off the results, and
   `PipelineCompletion` and `FreedTensors` say when a task can still be completed.
2. **Chunks and the whole video.** `ChunkPlan` and `VideoDecoder` cut the video; `CutAdapter` turns detections
   into transitions and scenes; `Tracker` follows objects; `Aggregation` merges. `CutProperties` states the
   contract of one chunk. `CutFold` and `TrackingFold` prove that folding the chunks is one pass.
   `CoveredCuts` follows a hard cut past its own chunk.
3. **Crash replay.** `CutReplay`, `TrackingActor` and `TrackingReplay` run the two workers' handlers under
   crashes between any two steps, failed inferences and redelivery. `TrackerRetry` and `TrackingProgress` give
   the exact conditions for a harmless retry and for progress, and `RetryRuns` the runs in which a retry goes
   wrong. `PipelineReplay` composes this with layer 2, and `EndToEnd` with layer 1.
4. **Supporting algorithms.** `Runs`, `ShotDetector` and `InferenceWindows` (the cut detector after the
   network), `Fusion` (suppression of overlapping boxes), `ObjectRegistry` and `PutClients` (capacity of the
   object registry under interleaved, lost and late calls).

Code that updates state is a class or a method proved against a function of the old state; the functions'
properties are lemmas. Concurrency and crashes are state machines over steps. Confidences, progress and boxes
are reals. Neural networks and ByteTrack are function parameters. A scene id string is represented by its
number, a chunk id by its index, and a message by its chunk, its object token and an opaque body.

## Where the code and its documents differ

- The documents say that the aggregator asks the registry to release a chunk once both outputs exist. In the
  code the ingest process releases chunks 0, 1, 2, ... up to the number of tracked chunks
  (`backend/app/workers/ingest.py:393-421`). `LoopsReleaseAfterResult` shows this is safe by counting: the
  tracked chunks lie within the published results, although a released chunk need not be a tracked one.
- The `finally` block of the publish loop (`backend/app/workers/ingest.py:175-190`) frees the tensor whenever
  the call did not answer "new", also when the script ran and only its reply was lost. The chunk is then
  queued without its tensor. `EarlyReleaseIffReplyLost` states exactly when this happens, and
  `ReplyCanBeLost` gives the run. Such a chunk can no longer be cut, so its task is never completed
  (`FreedChunkNeverCompletes`, `LostReplyStrandsTask`).
- The fallback of `_load_state` in the cut worker does not rebuild the persisted state in general.
  `RebuildMatchesIff` gives the exact condition and `RebuildDiffers` an input; `FallbackNeverUsed` shows that
  it finds nothing to rebuild from as long as no key expires.
- Tracking chunk by chunk in any order is safe but need not go on. `NextIsPublishableIff` gives the exact
  condition under which the next result can still be published from any reachable state; two runs that stop a
  task for good are `OutOfOrderNeverPublishes`. Delivered in order, every chunk can be published
  (`NextDeliveryPublishes`).
- An inference that raises in the middle of a chunk leaves the detached actor alive with a partly advanced
  tracker, and the worker retries the same message (`backend/app/workers/common.py:132-215`), so frames are
  stepped twice. `HarmlessRetry` and `RetryRepeatsIff` say exactly when the retry repeats the job: nothing was
  stepped, or the chunk's first scene starts after a transition, or the failure came in a later scene and the
  first one had not been begun by an earlier chunk. `PublishedIsFold` holds for every run in which the actor is
  restarted after a harmful failure. `RetryIsFoldIff` says for which runs the retry of any chunk publishes the
  wrong tracks, and `WrongTracksArePublished` is an input: two frames, and a failure on the second.
- A hard cut inside a gradual transition is dropped per chunk only. A hard cut that was emitted ends up inside
  an emitted gradual exactly when, at the next chunk, a gradual that starts at or before it is pending or
  detected (`HardCutIsCoveredIff`, with the input `CoveredCutExists`).
- A put that raised may keep its slot in the registry for good. `SlotIsLeakedIff` says exactly when; a late
  reserve call (`TimedOutReserveLeaksSlot`) and a late register call (`TimedOutRegisterLeaksSlot`) do it.
- If the aggregator dies after the last chunk was marked, the task is never completed, since a later delivery
  is not new (`backend/app/workers/aggregator.py:42-46`). `CompletableIff` gives the exact condition and
  `CrashStrandsTask` the run.

## Model

| member | source | states |
|---|---|---|
| TaskRepository.TaskStore.UpdateStatusScript | backend/app/infrastructure/task_repository.py:230-331 | the status script moves the record as `UpdateStatus` does: terminal stages absorb, stale stages are ignored, illegal ones refused before any write, progress and counters only rise |
| TaskRepository.TaskStore.PublishIngestChunkOnce | backend/app/infrastructure/task_repository.py:423-472 | a chunk is published, counted and queued the first time only |
| TaskRepository.TaskStore.MarkIngestCompleteScript | backend/app/infrastructure/task_repository.py:474-503 | ingest is marked complete only when all chunks are published |
| TaskRepository.TaskStore.DispatchContiguous | backend/app/infrastructure/task_repository.py:550-572 | the `while true` loop terminates and leaves the record as the recursive `Dispatch` |
| TaskRepository.TaskStore.RecordCutAndDispatch | backend/app/infrastructure/task_repository.py:527-605 | store the cut and its job, count it once, dispatch every contiguous job, then write the status |
| TaskRepository.TaskStore.MarkChunkTrackingDone | backend/app/infrastructure/task_repository.py:647-693 | refused before a verified cut, otherwise counted once, with the stage and progress written |
| TaskRepository.TaskStore.PublishTrackingResultInOrder | backend/app/infrastructure/task_repository.py:731-755 | appended only for the next index; earlier ones are duplicates, later ones refused |
| DispatchOrder.DispatchShape | backend/app/infrastructure/task_repository.py:550-572 | dispatching stops at the first chunk without a job and clears exactly the jobs it sent |
| DispatchOrder.DispatchAppends | backend/app/infrastructure/task_repository.py:550-572 | the stream grows by exactly the jobs of the chunks passed, in index order |
| DispatchOrder.DispatchIsContiguous | backend/app/infrastructure/task_repository.py:527-605 | after any deliveries the job stream is chunks 0..next-1, once each in order, and next is the least index without a cut |
| DispatchOrder.DispatchDependsOnlyOnTheSet | backend/app/infrastructure/task_repository.py:527-605 | job stream, next index and cut counter depend only on the set of cut results delivered, not on order or multiplicity |
| DispatchOrder.NewTaskDispatch | backend/app/infrastructure/task_repository.py:527-605 | both for a newly created task, without an assumption on the record |
| TaskInvariant.TablesAgree | backend/app/domain/state_machine.py:5-14 | the transition table inside the Lua script is the one of the state machine |
| TaskInvariant.PatchIsAllowed | backend/app/infrastructure/task_repository.py:235-280 | whatever stage is requested from whatever stale snapshot, the stage stays or takes an edge of the state machine; a refusal changes nothing |
| TaskInvariant.GuardAgreesWithScript | backend/app/infrastructure/task_repository.py:219-228 | on a fresh snapshot the Python check returns or raises exactly when the script would absorb or refuse |
| TaskInvariant.TrackedWithinResults | backend/app/infrastructure/task_repository.py:654-661 | tracked chunks lie within the published results, so their number bounds nothing more |
| PipelineInvariant.RunInv | backend/app/infrastructure/task_repository.py:192-776 | every run of the pipeline keeps the invariant linking counters, flag sets, streams, handlers' local variables and freed tensors |
| PipelineTheorems.StageSafety | backend/app/domain/state_machine.py:5-27 | every stage change on any interleaving is an edge of the transition table, and terminal stages stay |
| PipelineTheorems.RunMonotone | backend/app/infrastructure/task_repository.py:282-314 | along any run stages never go back and progress, counters and streams only grow |
| PipelineTheorems.ProgressMeansCompleted | backend/app/infrastructure/task_repository.py:577-602 | progress is within 0..100 and above 90 exactly when completed |
| PipelineTheorems.CountersMatchFlags | backend/app/infrastructure/task_repository.py:439-457 | each counter is the size of its flag set, the published set is a prefix, tracked within results within dispatched within published within total |
| PipelineTheorems.StreamsAreInOrder | backend/app/infrastructure/task_repository.py:731-755 | jobs and results are sent for chunks 0, 1, 2, ... once each, with the token stored for the chunk |
| PipelineTheorems.InFlightBounded | backend/app/workers/ingest.py:423-466 | with one ingest handler at a time, published minus tracked never passes the per-task limit |
| PipelineTheorems.CompletedMeansSaved | backend/app/workers/aggregator.py:24-84 | aggregation is entered at most once and exactly when all chunks are tracked; completed implies a saved result with both payloads of every chunk |
| FreedTensors.FreedChunkNeverCompletes | participant_4_cut_detection/worker.py:419-425 | a chunk that lost its tensor before it was cut keeps its task from completing on every continuation in which a worker cannot cut a chunk without its tensor |
| FreedTensors.LostReplyStrandsTask | backend/app/workers/ingest.py:175-190 | every local task has a run whose lost reply does this |
| PipelineCompletion.CompletableIff | backend/app/workers/aggregator.py:42-84 | once all chunks are tracked, a task that has not ended can be completed by some continuation if and only if an aggregator is still alive |
| PipelineCompletion.CrashStrandsTask | backend/app/workers/aggregator.py:42-84 | a run of a task of one chunk that can be completed, and cannot once its aggregator crashes |
| PipelineTheorems.CutAlwaysVerified | backend/app/workers/aggregator.py:24-43 | the "tracking before a verified cut" error cannot occur |
| PipelineTheorems.HandlersAreNeverRefused | backend/app/workers/ingest.py:327-350 | neither the Python check nor the script ever refuses a stage change of an ingest handler or the completion of a saved result, and none marks ingest complete too early |
| PipelineTheorems.LoopsReleaseAfterResult | backend/app/workers/ingest.py:393-421 | the release loops free a chunk only after its tracking result was published |
| PipelineTheorems.EarlyReleaseIffReplyLost | backend/app/workers/ingest.py:175-190 | a queued chunk without a result has lost its tensor if and only if some event of the run published it and lost the reply |
| PipelineTheorems.ReplyCanBeLost | backend/app/workers/ingest.py:175-190 | the run in which that happens exists for every local task |
| ChunkPlan.EffectiveChunking | backend/app/services/video_decoder.py:109-138 | chunk at least 1, overlap below chunk, neither above the configured value, chunk plus overlap within the byte limit; refused exactly when one frame exceeds it |
| ChunkPlan.WindowsTile | backend/app/services/video_decoder.py:163-219 | every window obeys the batch schema, ends where its context ends, starts where the one before ended, and is last exactly at the last index |
| ChunkPlan.FrameHasOneOwner | backend/app/services/video_decoder.py:141-144 | every frame lies in exactly one valid range |
| VideoDecoder.FFmpegVideoDecoder.DecodeBatch | backend/app/services/video_decoder.py:146-220 | after any calls, in sequence or jumping, with any short reads, a batch is the video's slice between the context bounds; truncation means that the file ends inside the window or FFmpeg died early; the overlap, buffer-size and process checks never fail |
| VideoDecoder.FFmpegVideoDecoder.ReadFramesInto | backend/app/services/video_decoder.py:301-326 | the buffer-size and process checks, then the buffer is filled from the pipe's position, and fails exactly when the pipe ends first |
| VideoDecoder.FFmpegVideoDecoder.RestartStream | backend/app/services/video_decoder.py:249-299 | a new process, if it starts, writes a prefix of the file from the context start of the requested chunk on, and no overlap is kept |
| VideoDecoder.FFmpegVideoDecoder.KeepTail | backend/app/services/video_decoder.py:196-210 | the next index is k + 1 and the kept tail is the slice that the next chunk's context starts with, or nothing without overlap; after the last chunk the process is closed |
| VideoDecoder.ChunksRebuildVideo | backend/app/services/video_decoder.py:207-219 | joining the frames that the chunks own gives back the video |
| SceneSplit.SplitJoin | participant_4_cut_detection/worker.py:196-240 | splitting two adjacent ranges one after the other and merging by scene id is splitting their union |
| SceneSplit.SceneOfFrame | participant_4_cut_detection/worker.py:201-240 | a scene covers a frame exactly when its number counts the anchors before that frame |
| CutAdapter.DeduplicateOwned | participant_4_cut_detection/worker.py:57-175 | the loops over detections, with the dictionary keeping the most confident of equal keys, compute `Emitted` and `PendingAfter` |
| CutAdapter.BuildCutResult | participant_4_cut_detection/worker.py:178-263 | the scene loop computes the split of the valid range; errors in the code's order |
| CutProperties.EmittedFit | participant_4_cut_detection/worker.py:87-175 | a chunk emits transitions of its own window only, all with different keys, sorted by anchor |
| CutProperties.PendingSurvives | participant_4_cut_detection/worker.py:110-152 | a gradual left open before the chunk is emitted or carried on, starting no later and no less confident |
| CutProperties.GradualIsKept | participant_4_cut_detection/worker.py:140-152 | a gradual detection that ends in the valid range is emitted, or pending if it reaches the end of a chunk that is not last |
| CutProperties.GradualHasOrigin | participant_4_cut_detection/worker.py:110-152 | every emitted gradual is a detection, a detection joined with the pending gradual, or the pending gradual ended at the boundary |
| CutProperties.HardCutIsKept | participant_4_cut_detection/worker.py:154-166 | a hard cut is emitted exactly when it was detected in the valid range and no gradual emitted by the chunk covers it |
| CutProperties.CutNeverFails | backend/app/domain/schemas.py:276-311 | in order and with in-range detections, the result passes the message, transition and scene validators |
| CutFold.NoChunkFails | participant_4_cut_detection/worker.py:178-263 | for any in-range detections every chunk of the plan succeeds |
| CutFold.AggregatedScenes | backend/app/services/result_aggregation.py:44-60 | the scenes merged by id are [0, N) split after each emitted anchor: no gap, no overlap, ids increasing, and each frame's id counts the anchors before it |
| CutFold.AggregatedTransitions | backend/app/services/result_aggregation.py:61-72 | chunks emit different transitions, so the aggregator's dictionary drops nothing and the scene number is the number of transitions |
| CutFold.DetectedGradualIsEmitted | participant_4_cut_detection/worker.py:110-152 | every gradual detection owned by some chunk shows in the final output, whole or merged |
| CutFold.NothingStaysPending | participant_4_cut_detection/worker.py:132-152 | nothing is pending after the last chunk |
| CoveredCuts.OnlyLaterCovers | participant_4_cut_detection/worker.py:110-166 | an emitted hard cut lies in a gradual of another chunk exactly if that chunk is later and its gradual starts at or before the cut |
| CoveredCuts.HardCutIsCoveredIff | participant_4_cut_detection/worker.py:110-166 | an emitted hard cut ends up inside an emitted gradual if and only if at the next chunk a gradual that starts at or before it is pending or used |
| CoveredCuts.CoveredCutExists | participant_4_cut_detection/worker.py:110-166 | two chunks of detections for which this happens |
| CutFold.ChunkSceneIsVideoScene | participant_4_cut_detection/worker.py:196-240 | the scene id a chunk gives a frame is that frame's scene in the whole video |
| Aggregation.AggregateResult | backend/app/services/result_aggregation.py:15-115 | the dictionary loops compute the merged, sorted scenes, transitions and tracks and count missing outputs |
| Tracker.SceneTracker.MapTrackId | participant_3_tracking/yolo_world_tracker.py:363-369 | an id already given stays, a new one is the next number, and the map stays a bijection onto 0..next-1 |
| Tracker.SceneTracker.ProcessInterval | participant_3_tracking/yolo_world_tracker.py:371-433 | resets as asked or when the scene changes, then one ByteTrack step per frame in order, up to the frame on which detection raises |
| Tracker.SceneTracker.ProcessJob | participant_3_tracking/yolo_world_tracker.py:435-481 | the job's outcome with its errors, also when detection raises on any of its frames, and the state each leaves behind |
| Tracker.SceneTracker.RestoreState | participant_3_tracking/yolo_world_tracker.py:483-516 | restoring an exported checkpoint gives back exactly the exported state |
| TrackerRetry.HarmlessRetry | participant_3_tracking/yolo_world_tracker.py:379-394 | for every tracker, frames and state, after a failure that meets the condition the same tracker makes of the job what it would have made without it |
| TrackerRetry.RetryRepeatsIff | participant_3_tracking/yolo_world_tracker.py:379-394 | the condition is exact: for a tracker that counts frames the retry reports the undisturbed objects if and only if it holds |
| Tracker.ReportFits | participant_3_tracking/yolo_world_tracker.py:400-430 | a reported box lies inside the frame and obeys the schema |
| TrackingFold.TrackingIsOnePass | participant_3_tracking/yolo_world_tracker.py:371-481 | any tracking of the chunks in order is the whole-video tracker stepped once per frame from 0 on |
| TrackingFold.TrackingNeverFails | participant_3_tracking/yolo_world_tracker.py:435-481 | every job of the cut stage, in order, is accepted |
| TrackingFold.ResetsAtSceneStarts | participant_3_tracking/yolo_world_tracker.py:379-380 | the tracker is reset exactly at the first frame of each final scene |
| TrackingFold.PassKeepsDense | participant_3_tracking/yolo_world_tracker.py:363-369 | at every frame the scene-local ids are a bijection onto 0..next-1 |
| TrackingFold.PassReports | participant_3_tracking/yolo_world_tracker.py:418-432 | every reported object is valid and carries the scene of its frame |
| TrackingFold.PipelineIsOnePass | backend/app/services/result_aggregation.py:41-115 | the aggregated result of all chunks is that of one pass over the whole video |
| CutReplay.RunIsFold | participant_4_cut_detection/worker.py:361-417 | under crashes, redelivery and differing inferences, the cached results and the durable state are always a crash-free fold |
| CutReplay.PublicationsAgree | participant_4_cut_detection/worker.py:439-460 | all publications of a chunk carry the same payload |
| CutReplay.FallbackNeverUsed | participant_4_cut_detection/worker.py:376-382 | without the state hash nothing was published, so there is nothing to rebuild from |
| CutReplay.RebuildMatchesIff | participant_4_cut_detection/worker.py:376-390 | the rebuilt state equals the persisted one if and only if nothing is pending and the first transition does not end on the frame before the valid range |
| CutReplay.OpenGradualIsLost | participant_4_cut_detection/worker.py:376-390 | whenever a gradual detection reaches the end of a chunk that is not last, the rebuilt state is wrong |
| CutReplay.RebuildDiffers | participant_4_cut_detection/worker.py:376-390 | a window and detections for which this happens |
| CutReplay.ReplayIsCrashFree | participant_4_cut_detection/worker.py:439-460 | once every chunk is cached, the results are those of one crash-free run over the video |
| TrackingActor.TrackingInferenceActor.Process | participant_3_tracking/worker.py:81-119 | cache hit, late export, single restore, failures, an inference that raises after some frames, and eviction leave the actor as `Processed` |
| TrackingReplay.PublishedIsFold | participant_3_tracking/worker.py:245-296 | whatever the order, crashes, failed inferences and redelivery, what is published is the crash-free results in order, as long as a tracker left by a harmful failure is not asked again |
| TrackingReplay.RunIsOrdered | participant_3_tracking/worker.py:81-119 | in order, the live tracker is at the durable checkpoint, or one chunk ahead and still holds that chunk in its cache; a tracker left by a harmful failure counts as restarted |
| TrackingReplay.CallIsNeverRefused | participant_3_tracking/worker.py:269-285 | in order, the actor never refuses a chunk as out of sequence, and answers the crash-free tracks with a state that goes on as the fold |
| TrackingReplay.NextDeliveryPublishes | participant_3_tracking/worker.py:245-296 | in order and whatever crashed or failed before, unless a tracker left by a harmful failure is still alive, one undisturbed delivery of the next chunk publishes its result |
| TrackingProgress.NextIsPublishableIff | participant_3_tracking/worker.py:245-296 | from any reachable state, whatever failed before, some continuation publishes the next chunk if and only if it is cached in Redis or the actor, about to be written, or expected by the live tracker or by the durable state |
| TrackingProgress.OutOfOrderNeverPublishes | participant_3_tracking/yolo_world_tracker.py:446-452 | after either of two runs, one with a later chunk first and one with chunk 0 tracked first and lost, no continuation ever publishes anything |
| PipelineReplay.TaskIsSequential | participant_3_tracking/yolo_world_tracker.py:446-481 | a job of the cut stage succeeds from any tracker that expects its chunk, is refused by any other, and a failure leaves the tracker expecting the same chunk |
| PipelineReplay.ReplayedPipelineIsOnePass | backend/app/services/result_aggregation.py:41-115 | with crashes, redelivery and failed inferences, the published results aggregate to the scenes, transitions and tracks of one pass |
| PipelineReplay.FailureIsHarmless | backend/app/workers/common.py:132-215 | a failure that meets the condition leaves an actor whose retry gives the undisturbed result |
| RetryRuns.RetryIsFoldIff | backend/app/workers/common.py:132-215 | for a counting tracker on any cut video and any chunk i, after the chunks before it, the retry of the failed chunk publishes the undisturbed tracks if and only if the failure meets the condition |
| RetryRuns.WrongTracksArePublished | participant_3_tracking/yolo_world_tracker.py:391-394 | an input: on a video of two frames whose second frame fails first, the published tracks are not the undisturbed ones |
| PipelineReplay.CutVideoProgress | participant_3_tracking/worker.py:245-296 | the progress condition for the jobs that the cut stage makes |
| EndToEnd.CompletedIsOnePass | backend/app/workers/aggregator.py:24-84 | if a task is completed, the rows it saved decode and aggregate to the result of one pass over the whole video |
| PipelineReplay.ProbabilitiesFeedTheFold | participant_4_cut_detection/autoshot_detector.py:234-295 | whatever the network's probabilities, the detector's output is accepted for every chunk |
| Runs.RunsAreMaximal | participant_4_cut_detection/autoshot_detector.py:212-223 | the strict zip never fails, and the runs are exactly the maximal runs of true frames in order |
| Runs.MergeRuns | participant_4_cut_detection/autoshot_detector.py:225-232 | the in-place merging loop computes `Merged` |
| Runs.MergedSpans | participant_4_cut_detection/autoshot_detector.py:225-232 | each merged run spans from the first to the last run of a group, and groups end exactly at gaps longer than the merge gap |
| Runs.MergedAreSeparated | participant_4_cut_detection/autoshot_detector.py:225-232 | merged runs start and end on runs, stay apart, and leave only gaps longer than the merge gap |
| ShotDetector.DetectTransitions | participant_4_cut_detection/autoshot_detector.py:234-295 | the loops compute `DetectedTransitions` |
| ShotDetector.DetectionsFit | participant_4_cut_detection/autoshot_detector.py:234-295 | detections are in range and sorted by anchor, graduals share no frame, no hard cut lies in a gradual of the same tensor |
| ShotDetector.BoundaryIsReported | participant_4_cut_detection/autoshot_detector.py:276-289 | the peak of every run of boundary frames is reported, as a hard cut or inside a gradual |
| InferenceWindows.PredictProbabilities | participant_4_cut_detection/autoshot_detector.py:179-204 | the loop terminates and each probability is the mean of the scores of the windows that cover the frame, also for a short tensor |
| InferenceWindows.EveryFrameIsCovered | participant_4_cut_detection/autoshot_detector.py:187-202 | every frame is covered by at least one window |
| InferenceWindows.MeanBetween | participant_4_cut_detection/autoshot_detector.py:203-204 | a probability lies between the lowest and highest score of the windows that cover its frame |
| Fusion.IouBounds | participant_3_tracking/yolo_world_tracker.py:315-331 | intersection over union is symmetric and lies in [0, 1], and is 1 for a box of positive area with itself |
| Fusion.FuseDetections | participant_3_tracking/yolo_world_tracker.py:333-350 | no kept box suppresses another, and every dropped box has a kept one of its class with no less confidence and at least the threshold overlap |
| Fusion.FusionIsIdempotent | participant_3_tracking/yolo_world_tracker.py:333-350 | fusing again changes nothing |
| ObjectRegistry.Registry.ReserveSlot | backend/app/ray_runtime/object_registry.py:53-70 | a slot is claimed when the token is known or a slot is free, and refused otherwise |
| ObjectRegistry.Registry.RegisterObject | backend/app/ray_runtime/object_registry.py:78-103 | a reservation becomes an entry; without one the capacity is checked again |
| ObjectRegistry.Registry.ReleaseObject | backend/app/ray_runtime/object_registry.py:158-176 | entry and reservation are removed and the entry's object is freed |
| ObjectRegistry.Registry.CancelReservation | backend/app/ray_runtime/object_registry.py:72-76 | only a reservation is dropped, and the answer says whether there was one |
| ObjectRegistry.Registry.CountObjects | backend/app/ray_runtime/object_registry.py:178-179 | entries and reservations together |
| ObjectRegistry.RegisterKeeps | backend/app/ray_runtime/object_registry.py:78-103 | registering a reserved token never fails and keeps the count |
| PutClients.CapacityIsNeverExceeded | backend/app/infrastructure/ray_store.py:70-115 | for any interleaving of many clients with lost, late and abandoned calls, entries and reservations are disjoint and within the limit |
| PutClients.StoredTensorsHaveSlots | backend/app/infrastructure/ray_store.py:88-105 | every stored tensor has a slot, so stored tensors never outnumber slots |
| PutClients.SlotIsLeakedIff | backend/app/infrastructure/ray_store.py:70-126 | the token of a put that is over and returned nothing keeps its slot on every continuation if and only if it is registered, or reserved with no cancellation on its way |
| PutClients.TimedOutReserveLeaksSlot | backend/app/infrastructure/ray_store.py:82-86 | a reservation served after its caller gave up holds its slot on every continuation |
| PutClients.TimedOutRegisterLeaksSlot | backend/app/infrastructure/ray_store.py:99-115 | so does a registration served after its caller rolled back |

## Left out

- Foreign systems: Redis, Ray, FFmpeg, FastAPI, Pydantic JSON, metrics and logging. Their calls are atomic steps, a byte pipe with short reads, or message values; Python's `sorted` is given as stable insertion sort.
- Data lost by design: TTL expiry, stream `MAXLEN` trimming, a restarted registry and tracker state that cannot be pickled are assumed not to occur.
- Floating point: confidences, progress, boxes and probabilities are reals; NaN and the float32 rounding of fused boxes and score sums are not modelled, and the square root is a parameter.
- Timers: stall timeouts, heartbeats, retry delays, timestamps, fps and the timing fields of results; a timeout appears only as a lost or late reply.
- TaskRepository.TaskStore.UpdateStatusScript: message texts, error codes and timestamps are not modelled, because no other field depends on them.
- FreedTensors.FreedChunkNeverCompletes: the publish script and the free in its `finally` block are one step when the reply is lost; a cut worker that fetches the tensor between the two is not modelled.
- PipelineTheorems.InFlightBounded: with several ingest handlers of one task each counts its own publications, so the bound is stated for one handler at a time.
- VideoDecoder.FFmpegVideoDecoder.DecodeBatch: the probe and a timed-out decode thread that races with `close` are not modelled; whether FFmpeg starts, how much it writes and its exit code are arbitrary.
- Aggregation.AggregateResult: timings are not modelled, and scene ids sort as numbers where the source sorts strings; in the pipeline's results the id never decides, since scenes have different starts and a frame's tracks share one scene.
- Tracker.SceneTracker.ProcessJob: detection may raise on any frame; an exception inside ByteTrack's own update, which may leave it between two frames, is not modelled.
- Tracker.SceneTracker.RestoreState: the ids-only checkpoint of a tracker that cannot be pickled is not modelled.
- TrackingReplay.PublishedIsFold: the tracker's step is deterministic; a recomputation after an actor crash that differs because of the device is not modelled.
- PutClients.StoredTensorsHaveSlots: explicit frees succeed; a failed free leaves the tensor to garbage collection.
- Two deliveries of the same task handled at once in the cut or tracking worker; the workers partition by task.
- Upload, archive and URL services, HTTP routes, the frontend, mock workers and the legacy detector scripts: input and output, or only easy members.
