/** Cut and tracking stages together: with crashes and redelivery in both, the result is one pass. */
module PipelineReplay {
  import opened Prelude
  import opened ChunkPlan
  import opened Sorting
  import opened Transitions
  import opened SceneSplit
  import opened CutAdapter
  import opened CutProperties
  import opened Tracker
  import opened TrackerRetry
  import opened Aggregation
  import opened CutFold
  import opened TrackingFold
  import TrackingActor
  import ShotDetector
  import R = TrackingReplay
  import P = TrackingProgress
  import C = CutReplay

  /** The tracker on chunk k of the given jobs. */
  ghost function RunJob<F, M>(k: Kit<F, M>, video: seq<F>, rs: seq<CutResult>, c: Checkpoint<M>, i: nat)
    : (Checkpoint<M>, Result<TrackingActor.Tracked, TrackingError>)
  {
    if i < |rs| && FitsVideo(rs[i], |video|) then JobOutcome(k, c, rs[i], Tensor(video, rs[i].window))
    else (c, Err(OutOfSequence))
  }

  predicate FitsVideo(r: CutResult, frames: nat) {
    r.window.contextStart <= r.window.validStart <= r.window.validEnd <= r.window.contextEnd < frames
  }

  /** The tracker that is left when detection raises on the j-th frame of chunk i's job. */
  ghost function BrokenJob<F, M>(k: Kit<F, M>, video: seq<F>, rs: seq<CutResult>, c: Checkpoint<M>, i: nat, j: nat)
    : Option<Checkpoint<M>>
  {
    if i < |rs| && FitsVideo(rs[i], |video|) && Accepted(c, rs[i], Tensor(video, rs[i].window))
       && Reached(rs[i], Sorted(rs[i]), j)
    then Some(JobAttempt(k, c, rs[i], Tensor(video, rs[i].window), Some(j)).0)
    else None
  }

  /** The tracking task of a video whose chunks have been cut. */
  ghost function TaskOf<F, M>(k: Kit<F, M>, video: seq<F>, rs: seq<CutResult>, noClasses: bool): R.Task<M> {
    R.Task(BlankCheckpoint(k), (c: Checkpoint<M>, i: nat) => RunJob(k, video, rs, c, i),
           (c: Checkpoint<M>, i: nat, j: nat) => BrokenJob(k, video, rs, c, i, j), |rs|, noClasses)
  }

  lemma {:induction false} InLineSucceeds<F, M>(
    k: Kit<F, M>, anchors: seq<int>, job: CutResult, frames: seq<F>, s: TrackerState<M>, scenes: seq<Scene>)
    requires DecoderWindow(job.window) && |frames| == job.window.FrameCount() && InLine(anchors, job, scenes)
    ensures ProcessScenes(k, s, job, frames, scenes).1.Ok?
  {
    if scenes != [] {
      InLineSucceeds(k, anchors, job, frames, s, scenes[..|scenes| - 1]);
    }
  }

  lemma SortedSucceeds<F, M>(k: Kit<F, M>, anchors: seq<int>, job: CutResult, frames: seq<F>, s: TrackerState<M>)
    requires DecoderWindow(job.window) && |frames| == job.window.FrameCount() && Agrees(anchors, job)
    ensures ProcessScenes(k, s, job, frames, Sort(job.scenes, ByStart)).1.Ok?
  {
    SortedScenesInLine(anchors, job);
    InLineSucceeds(k, anchors, job, frames, s, job.scenes);
  }

  /** A job of the cut stage succeeds from any tracker that expects its chunk, and is refused by others. */
  lemma JobSucceeds<F, M>(k: Kit<F, M>, anchors: seq<int>, job: CutResult, frames: seq<F>, c: Checkpoint<M>)
    requires DecoderWindow(job.window) && |frames| == job.window.FrameCount() && Agrees(anchors, job)
    ensures var r, i := JobOutcome(k, c, job, frames), job.window.chunkIndex;
      if R.InSequence(c, i) then r.1.Ok? && r.0.expectedChunk == Some(i + 1) else r == (c, Err(OutOfSequence))
  {
    SortedSucceeds(k, anchors, job, frames, c.state);
  }

  lemma JobRuns<F, M>(
    k: Kit<F, M>, video: seq<F>, anchors: seq<int>, rs: seq<CutResult>, c: Checkpoint<M>, i: nat)
    requires JobsFit(anchors, |video|, rs) && i < |rs|
    ensures var r := RunJob(k, video, rs, c, i);
      if R.InSequence(c, i) then r.1.Ok? && r.0.expectedChunk == Some(i + 1) else r == (c, Err(OutOfSequence))
  {
    JobFits(anchors, |video|, rs, i);
    var job := rs[i];
    assert FitsVideo(job, |video|);
    JobSucceeds(k, anchors, job, Tensor(video, job.window), c);
  }

  lemma TaskIsSequential<F, M(!new)>(
    k: Kit<F, M>, video: seq<F>, anchors: seq<int>, rs: seq<CutResult>, noClasses: bool)
    requires JobsFit(anchors, |video|, rs)
    ensures R.Sequential(TaskOf(k, video, rs, noClasses))
  {
    var t := TaskOf(k, video, rs, noClasses);
    forall c: Checkpoint<M>, i: nat | i < |rs|
      ensures if R.InSequence(c, i) then t.run(c, i).1.Ok? && t.run(c, i).0.expectedChunk == Some(i + 1)
              else t.run(c, i) == (c, Err(OutOfSequence))
    {
      JobRuns(k, video, anchors, rs, c, i);
    }
    forall c: Checkpoint<M>, i: nat, j: nat | i < |rs| && t.broken(c, i, j).Some?
      ensures R.InSequence(c, i) && t.broken(c, i, j).value.expectedChunk == Some(i)
    {
      JobFits(anchors, |video|, rs, i);
    }
  }

  lemma PlanStep<F, M>(k: Kit<F, M>, video: seq<F>, rs: seq<CutResult>, tk: TrackingTrace<M>, i: nat)
    requires i < |rs| && Tracks(k, video, rs, tk, |rs|) && rs[i].window.chunkIndex == i
    requires tk.checkpoints[i].expectedChunk in {None, Some(i)}
    ensures RunJob(k, video, rs, tk.checkpoints[i], i) == (tk.checkpoints[i + 1], Ok(tk.outputs[i]))
    ensures tk.checkpoints[i + 1].expectedChunk == Some(i + 1)
  {
    assert TrackedAt(k, video, rs, tk, i);
  }

  /** A tracking trace of all chunks is the plan that the handler's runs follow. */
  lemma TaskIsPlanned<F, M(!new)>(
    k: Kit<F, M>, video: seq<F>, anchors: seq<int>, rs: seq<CutResult>, tk: TrackingTrace<M>, noClasses: bool)
    requires JobsFit(anchors, |video|, rs) && |rs| > 0 && Tracks(k, video, rs, tk, |rs|)
    ensures R.Planned(TaskOf(k, video, rs, noClasses), R.Plan(tk.checkpoints, tk.outputs))
  {
    var t, p := TaskOf(k, video, rs, noClasses), R.Plan(tk.checkpoints, tk.outputs);
    TaskIsSequential(k, video, anchors, rs, noClasses);
    forall i: nat | i < |rs| ensures R.PlanAt(t, p, i) {
      JobFits(anchors, |video|, rs, i);
      TrackingIsOnePass(k, video, anchors, rs, tk, |rs|, i);
      PlanStep(k, video, rs, tk, i);
    }
  }

  /** What the chunk hashes hold: the cut results and the published tracks. */
  function PayloadsOf(rs: seq<CutResult>, outputs: seq<seq<TrackedObject>>): seq<Payload>
    requires |outputs| == |rs|
  {
    seq(|rs|, i requires 0 <= i < |rs| && |outputs| == |rs| =>
                Payload(Some(rs[i]), Some(TrackingResult(i, outputs[i]))))
  }

  /**
   With crashes, redelivery and failed inferences: once every chunk's cut is cached and every tracking result
   is published, the aggregated result is that of one pass over the whole video.
   */
  lemma ReplayedPipelineIsOnePass<F, M(!new)>(
    c: Chunking, n: nat, cutEvents: seq<C.Event>, k: Kit<F, M>, video: seq<F>, rs: seq<CutResult>,
    trackingEvents: seq<R.Event>)
    requires c.Valid() && n == |video| > 0 && |rs| == TotalChunks(n, c.size)
    requires forall i: nat :: i < |rs| ==> i in C.Run(c, n, cutEvents).cache && C.Run(c, n, cutEvents).cache[i] == rs[i]
    requires R.Careful(TaskOf(k, video, rs, false), trackingEvents)
    requires |R.Run(TaskOf(k, video, rs, false), trackingEvents).published| == |rs|
    ensures OnePass(Aggregated(PayloadsOf(rs, R.Run(TaskOf(k, video, rs, false), trackingEvents).published)),
                    k, video, Anchors(AllTransitions(rs)), AllTransitions(rs))
  {
    var d, tr := C.ReplayIsCrashFree(c, n, cutEvents);
    assert tr.results == rs;
    CutJobsFit(c, n, d, tr);
    TraceIsLinked(c, n, d, tr);
    var tk := PublishedIsTracked(k, video, Anchors(AllTransitions(rs)), rs, trackingEvents);
    PipelineIsOnePass(c, n, d, tr, k, video, tk, PayloadsOf(rs, tk.outputs));
  }

  lemma PublishedIsTracked<F, M(!new)>(
    k: Kit<F, M>, video: seq<F>, anchors: seq<int>, rs: seq<CutResult>, es: seq<R.Event>)
    returns (tk: TrackingTrace<M>)
    requires JobsFit(anchors, |video|, rs) && |rs| > 0 && R.Careful(TaskOf(k, video, rs, false), es)
    requires |R.Run(TaskOf(k, video, rs, false), es).published| == |rs|
    ensures Tracks(k, video, rs, tk, |rs|) && R.Run(TaskOf(k, video, rs, false), es).published == tk.outputs
  {
    tk := TrackingNeverFails(k, video, anchors, rs, |rs|);
    TaskIsPlanned(k, video, anchors, rs, tk, false);
    R.PublishedIsFold(TaskOf(k, video, rs, false), R.Plan(tk.checkpoints, tk.outputs), es);
  }

  // ---------------------------------------------------------------- failed inferences

  /** In a job of the cut stage no two scenes have the same id. */
  lemma CutScenesOnce(c: Chunking, n: nat, d: seq<seq<Detection>>, tr: Trace, i: nat)
    requires Detected(c, n, d) && CutTrace(c, n, d, tr, |d|) && i < |d|
    ensures FirstSceneOnce(Sorted(tr.results[i]))
    ensures forall x :: x in Sorted(tr.results[i]) ==> SceneInJob(tr.results[i], x)
  {
    CutJobsFit(c, n, d, tr);
    TraceIsLinked(c, n, d, tr);
    JobFits(Anchors(AllTransitions(tr.results)), n, tr.results, i);
    SortedScenesInLine(Anchors(AllTransitions(tr.results)), tr.results[i]);
    assert ScenesAt(tr, i);
    var r := tr.results[i];
    SplitIds(r.window.validStart, r.window.validEnd, tr.states[i].activeScene, Anchors(r.transitions));
    forall x | x in r.scenes ensures SceneInJob(r, x) {
      SplitHasNoEmptyScene(r.scenes, r.window.validStart, r.window.validEnd, x);
    }
  }

  /** A failure with `Harmless` leaves a tracker that makes the same of the chunk. */
  lemma FailureIsHarmless<F, M>(k: Kit<F, M>, video: seq<F>, rs: seq<CutResult>, s: R.State<M>, j: nat)
    requires s.pc.Calling? && s.pc.k < |rs| && FirstSceneOnce(Sorted(rs[s.pc.k]))
    requires Harmless(rs[s.pc.k], TrackingActor.Restored(s.actor, s.pc.checkpoint).state.activeScene, j)
    ensures !R.Harmful(TaskOf(k, video, rs, false), s, R.CallFails(j))
  {
    var i, live := s.pc.k, TrackingActor.Restored(s.actor, s.pc.checkpoint);
    if BrokenJob(k, video, rs, live, i, j).Some? {
      HarmlessRetry(k, live, rs[i], Tensor(video, rs[i].window), j);
    }
  }

  /** Whatever the order and the crashes, when the tracking of a cut video can still publish its next chunk. */
  lemma CutVideoProgress<F, M(!new)>(
    c: Chunking, n: nat, d: seq<seq<Detection>>, tr: Trace, k: Kit<F, M>, video: seq<F>, es: seq<R.Event>)
    requires Detected(c, n, d) && CutTrace(c, n, d, tr, |d|) && |video| == n
    requires |R.Run(TaskOf(k, video, tr.results, false), es).published| < |tr.results|
    ensures var t := TaskOf(k, video, tr.results, false);
      (exists more :: P.Grows(t, es, more)) <==> P.CanPublish(t, R.Run(t, es))
  {
    CutJobsFit(c, n, d, tr);
    TaskIsSequential(k, video, Anchors(AllTransitions(tr.results)), tr.results, false);
    P.NextIsPublishableIff(TaskOf(k, video, tr.results, false), es);
  }

  // ---------------------------------------------------------------- from probabilities

  /** One pair of probability arrays per chunk, as long as the chunk's tensor. */
  ghost predicate Probabilities(c: Chunking, n: nat, boundary: seq<seq<real>>, transition: seq<seq<real>>) {
    && c.Valid() && |boundary| == |transition| == TotalChunks(n, c.size)
    && (forall k: nat {:trigger boundary[k]} {:trigger transition[k]} :: k < |boundary| ==>
          |boundary[k]| == |transition[k]| == WindowOf(c, n, k).FrameCount())
  }

  /** Whatever the network's probabilities, the detections of all chunks are what the cut fold accepts. */
  lemma ProbabilitiesFeedTheFold(
    settings: ShotDetector.Settings, c: Chunking, n: nat, boundary: seq<seq<real>>, transition: seq<seq<real>>)
    returns (d: seq<seq<Detection>>, tr: Trace)
    requires n > 0 && Probabilities(c, n, boundary, transition)
    ensures CutFold.Detected(c, n, d) && CutTrace(c, n, d, tr, |d|)
    ensures forall k: nat :: k < |d| ==> d[k] == ShotDetector.DetectedTransitions(settings, boundary[k], transition[k])
  {
    d := seq(|boundary|, k requires 0 <= k < |boundary| && |boundary| == |transition| && |boundary[k]| == |transition[k]| =>
                           ShotDetector.DetectedTransitions(settings, boundary[k], transition[k]));
    forall k: nat | k < |d| ensures AllInTensor(WindowOf(c, n, k), d[k]) {
      ShotDetector.DetectorFitsAdapter(settings, boundary[k], transition[k], WindowOf(c, n, k));
    }
    tr := NoChunkFails(c, n, d, |d|);
  }
}
