/**
 The protocol and the contents together. A completed task's saved rows hold what the cut and the tracking
 worker published, and aggregating them gives the result of one pass over the whole video.
 */
module EndToEnd {
  import opened Prelude
  import opened ChunkPlan
  import opened Transitions
  import opened CutAdapter
  import opened Tracker
  import opened Aggregation
  import opened CutFold
  import opened TrackingFold
  import opened PipelineReplay
  import TaskRepository
  import TaskInvariant
  import Pipeline
  import PipelineInvariant
  import PipelineTheorems
  import R = TrackingReplay
  import P = TrackingProgress
  import C = CutReplay

  /** How the bodies of messages and hash fields are read. */
  datatype Codec = Codec(cut: string -> CutResult, tracks: string -> seq<TrackedObject>)

  /** The cut worker publishes nothing else than what its handler published in a run. */
  ghost predicate CutBodies(cfg: TaskInvariant.Config, codec: Codec, s: C.State) {
    forall k: nat, body: string {:trigger cfg.cutBody(k, body)} ::
      cfg.cutBody(k, body) ==> (k, codec.cut(body)) in s.published
  }

  /** The tracking worker publishes nothing else than what its handler published in a run, in order. */
  ghost predicate TrackBodies<M>(cfg: TaskInvariant.Config, codec: Codec, s: R.State<M>) {
    forall k: nat, body: string {:trigger cfg.trackBody(k, body)} ::
      cfg.trackBody(k, body) ==> k < |s.published| && codec.tracks(body) == s.published[k]
  }

  /** The saved rows as the aggregator reads them. */
  function Decoded(cfg: TaskInvariant.Config, codec: Codec, rows: seq<TaskRepository.Chunk>): seq<Payload>
    requires forall k :: 0 <= k < |rows| ==> PipelineInvariant.RowOk(cfg, k, rows[k])
  {
    seq(|rows|, k requires 0 <= k < |rows| && PipelineInvariant.RowOk(cfg, k, rows[k]) =>
                Payload(Some(codec.cut(rows[k].cutPayload.value.body)),
                        Some(TrackingResult(k, codec.tracks(rows[k].trackingPayload.value.body)))))
  }

  /** What a run of the cut handler published for a chunk is what it cached. */
  lemma PublishedIsCached(c: Chunking, n: nat, es: seq<C.Event>, k: nat, r: CutResult)
    requires c.Valid() && (k, r) in C.Run(c, n, es).published
    ensures k in C.Run(c, n, es).cache && C.Run(c, n, es).cache[k] == r
  {
    var tr := C.RunIsFold(c, n, es);
    var s := C.Run(c, n, es);
    assert C.Durable(s, tr);
    var i :| 0 <= i < |s.published| && s.published[i] == (k, r);
    assert s.published[i].0 < |tr.results| && s.published[i].1 == tr.results[s.published[i].0];
  }

  lemma AllCutsCached(
    cfg: TaskInvariant.Config, es: seq<Pipeline.Event>, codec: Codec, c: Chunking, n: nat, cutEvents: seq<C.Event>)
    requires cfg.Valid() && c.Valid() && CutBodies(cfg, codec, C.Run(c, n, cutEvents))
    requires Pipeline.Run(cfg, es).db.stage.Completed?
    ensures var s := Pipeline.Run(cfg, es);
      && s.saved.Some? && |s.saved.value| == cfg.total
      && (forall k :: 0 <= k < cfg.total ==> PipelineInvariant.RowOk(cfg, k, s.saved.value[k]))
      && (forall k: nat :: k < cfg.total ==>
            k in C.Run(c, n, cutEvents).cache
            && codec.cut(s.saved.value[k].cutPayload.value.body) == C.Run(c, n, cutEvents).cache[k])
  {
    PipelineTheorems.CompletedMeansSaved(cfg, es);
    var s := Pipeline.Run(cfg, es);
    forall k: nat | k < cfg.total
      ensures k in C.Run(c, n, cutEvents).cache
      ensures codec.cut(s.saved.value[k].cutPayload.value.body) == C.Run(c, n, cutEvents).cache[k]
    {
      assert PipelineInvariant.RowOk(cfg, k, s.saved.value[k]);
      PublishedIsCached(c, n, cutEvents, k, codec.cut(s.saved.value[k].cutPayload.value.body));
    }
  }

  lemma RowsArePublished<M>(
    cfg: TaskInvariant.Config, codec: Codec, rows: seq<TaskRepository.Chunk>, s: R.State<M>)
    requires TrackBodies(cfg, codec, s) && rows != []
    requires forall i: nat :: i < |rows| ==> PipelineInvariant.RowOk(cfg, i, rows[i])
    ensures |rows| <= |s.published|
    ensures forall i: nat :: i < |rows| ==>
      PipelineInvariant.RowOk(cfg, i, rows[i]) && codec.tracks(rows[i].trackingPayload.value.body) == s.published[i]
  {
    assert PipelineInvariant.RowOk(cfg, |rows| - 1, rows[|rows| - 1]);
  }

  /** Rows whose bodies decode to the given results and tracks. */
  lemma DecodedIsPayloads(
    cfg: TaskInvariant.Config, codec: Codec, rows: seq<TaskRepository.Chunk>, rs: seq<CutResult>,
    outputs: seq<seq<TrackedObject>>)
    requires |rows| == |rs| == |outputs|
    requires forall i: nat :: i < |rows| ==>
      && PipelineInvariant.RowOk(cfg, i, rows[i])
      && codec.cut(rows[i].cutPayload.value.body) == rs[i]
      && codec.tracks(rows[i].trackingPayload.value.body) == outputs[i]
    ensures Decoded(cfg, codec, rows) == PayloadsOf(rs, outputs)
  {
  }

  lemma NoMorePublished<F, M(!new)>(
    c: Chunking, n: nat, cutEvents: seq<C.Event>, k: Kit<F, M>, video: seq<F>, rs: seq<CutResult>,
    trackingEvents: seq<R.Event>)
    requires c.Valid() && n == |video| > 0 && |rs| == TotalChunks(n, c.size)
    requires forall i: nat :: i < |rs| ==> i in C.Run(c, n, cutEvents).cache && C.Run(c, n, cutEvents).cache[i] == rs[i]
    ensures |R.Run(TaskOf(k, video, rs, false), trackingEvents).published| <= |rs|
  {
    var d, tr := C.ReplayIsCrashFree(c, n, cutEvents);
    assert tr.results == rs;
    CutJobsFit(c, n, d, tr);
    TaskIsSequential(k, video, Anchors(AllTransitions(rs)), rs, false);
    P.RunKept(TaskOf(k, video, rs, false), trackingEvents);
  }

  /**
   If a task is completed, then the rows it saved aggregate to the result of one pass over the whole video,
   whatever was delivered twice, reordered, crashed or retried in any stage.
   */
  lemma CompletedIsOnePass<F, M(!new)>(
    cfg: TaskInvariant.Config, es: seq<Pipeline.Event>, codec: Codec,
    c: Chunking, n: nat, cutEvents: seq<C.Event>,
    k: Kit<F, M>, video: seq<F>, rs: seq<CutResult>, trackingEvents: seq<R.Event>)
    requires cfg.Valid() && c.Valid() && n == |video| > 0 && cfg.total == |rs| == TotalChunks(n, c.size)
    requires CutBodies(cfg, codec, C.Run(c, n, cutEvents))
    requires forall i: nat :: i < |rs| && i in C.Run(c, n, cutEvents).cache ==> rs[i] == C.Run(c, n, cutEvents).cache[i]
    requires R.Careful(TaskOf(k, video, rs, false), trackingEvents)
    requires TrackBodies(cfg, codec, R.Run(TaskOf(k, video, rs, false), trackingEvents))
    requires Pipeline.Run(cfg, es).db.stage.Completed?
    ensures var s := Pipeline.Run(cfg, es);
      && s.saved.Some?
      && (forall i :: 0 <= i < |s.saved.value| ==> PipelineInvariant.RowOk(cfg, i, s.saved.value[i]))
      && OnePass(Aggregated(Decoded(cfg, codec, s.saved.value)), k, video,
                 Anchors(AllTransitions(rs)), AllTransitions(rs))
  {
    AllCutsCached(cfg, es, codec, c, n, cutEvents);
    var rows := Pipeline.Run(cfg, es).saved.value;
    var t := TaskOf(k, video, rs, false);
    var published := R.Run(t, trackingEvents).published;
    RowsArePublished(cfg, codec, rows, R.Run(t, trackingEvents));
    NoMorePublished(c, n, cutEvents, k, video, rs, trackingEvents);
    ReplayedPipelineIsOnePass(c, n, cutEvents, k, video, rs, trackingEvents);
    DecodedIsPayloads(cfg, codec, rows, rs, published);
  }
}
